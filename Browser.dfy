/** The browser facilities the client components share: the `localStorage` key/value store
    and the toast notifications they raise. */
module Browser {

  /** A toast notification as the components raise it (`variant: "destructive"` is `destructive`). */
  datatype Toast = Toast(title: string, description: string, destructive: bool)

  /** One record of the `savedBarcodes` list that the generator keeps in local storage:
      `id` is `Date.now()` at creation and `createdAt` the matching ISO time. */
  datatype SavedBarcode = SavedBarcode(id: int, data: string, format: string, createdAt: string)

  /** A value held under a storage key. Storage holds text; a text that `JSON.parse` turns into
      an array of saved barcodes is held in that decoded form, every other text as `Text`. */
  datatype StoredValue = Text(text: string) | RecordArray(records: seq<SavedBarcode>)

  type Items = map<string, StoredValue>

  const AuthenticatedKey := "authenticated"
  const SavedBarcodesKey := "savedBarcodes"

  /** `localStorage.getItem(key)`: the stored value, or `None` where JavaScript gives `null`. */
  function GetItem(items: Items, key: string): (v: Option<StoredValue>)
    ensures v.Some? <==> key in items
    ensures v.Some? ==> v.value == items[key]
  {
    if key in items then Some(items[key]) else None
  }

  /** `localStorage.getItem("authenticated") === "true"`. */
  predicate AuthenticatedFlag(items: Items) {
    GetItem(items, AuthenticatedKey) == Some(Text("true"))
  }

  /** The flag reads true exactly when the stored text is the four characters `true`:
      any other text under the key, a decoded array or no entry reads false. */
  lemma AuthenticatedFlagExact(items: Items, t: string)
    ensures AuthenticatedFlag(items[AuthenticatedKey := Text(t)]) <==> t == "true"
    ensures AuthenticatedFlag(items - {AuthenticatedKey}) == false
    ensures AuthenticatedFlag(items) ==> AuthenticatedKey in items
  {
  }

  /** JSON's insignificant whitespace, which `JSON.parse` skips before a value. */
  predicate IsJsonSpace(c: char) {
    c == ' ' || c == '\t' || c == '\n' || c == '\r'
  }

  /** The text opens a JSON array: after JSON whitespace its first character is `[`. */
  predicate StartsJsonArray(t: string) {
    t != [] && (t[0] == '[' || (IsJsonSpace(t[0]) && StartsJsonArray(t[1..])))
  }

  /** Storage in the form this model reads it: an array under `savedBarcodes` is held decoded,
      never as text that opens a JSON array. */
  predicate Canonical(items: Items) {
    SavedBarcodesKey in items && items[SavedBarcodesKey].Text? ==> !StartsJsonArray(items[SavedBarcodesKey].text)
  }

  /** `JSON.parse(v || "[]")` followed by `push`: no entry and the empty text both fall back to
      `"[]"`; a non-empty text that is not an array makes the parse or the following `push`
      throw, which is `None`. */
  function ParseSaved(v: Option<StoredValue>): Option<seq<SavedBarcode>> {
    match v
    case None => Some([])
    case Some(Text(t)) => if t == "" then Some([]) else None
    case Some(RecordArray(rs)) => Some(rs)
  }

  /** The saved-barcode list as the generator reads it from storage. */
  function SavedRecords(items: Items): (r: Option<seq<SavedBarcode>>)
    ensures SavedBarcodesKey !in items ==> r == Some([])
    ensures SavedBarcodesKey in items && items[SavedBarcodesKey] == Text("") ==> r == Some([])
    ensures r.None? <==> SavedBarcodesKey in items && items[SavedBarcodesKey].Text?
                         && items[SavedBarcodesKey].text != ""
    ensures SavedBarcodesKey in items && items[SavedBarcodesKey].RecordArray? ==>
              r == Some(items[SavedBarcodesKey].records)
  {
    ParseSaved(GetItem(items, SavedBarcodesKey))
  }

  /** One call a component made on `localStorage`, in the order made. */
  datatype Access = Get(key: string) | Set(key: string) | Remove(key: string)

  datatype Option<+T> = None | Some(value: T)

  /** The page's `localStorage`, shared by every component of the page. */
  class LocalStorage {
    var items: Items
    /** Every call made on this storage, oldest first, including calls that threw. */
    ghost var accesses: seq<Access>

    constructor (initial: Items)
      ensures items == initial && accesses == []
    {
      items := initial;
      accesses := [];
    }

    method Get(key: string) returns (v: Option<StoredValue>)
      modifies this
      ensures v == GetItem(items, key)
      ensures items == old(items) && accesses == old(accesses) + [Access.Get(key)]
    {
      v := GetItem(items, key);
      accesses := accesses + [Access.Get(key)];
    }

    /** `setItem`; `throws` says the browser refused the write (a full quota, say), in which case
        nothing is stored and `ok` is false. */
    method Set(key: string, value: StoredValue, throws: bool) returns (ok: bool)
      modifies this
      ensures ok == !throws
      ensures items == if ok then old(items)[key := value] else old(items)
      ensures accesses == old(accesses) + [Access.Set(key)]
    {
      ok := !throws;
      if ok {
        items := items[key := value];
      }
      accesses := accesses + [Access.Set(key)];
    }

    /** `removeItem`: the key is gone afterwards, whether or not it was there; `throws` says the
        browser refused the call (storage access denied), in which case nothing changes and `ok`
        is false. Either way the call is logged. */
    method Remove(key: string, throws: bool) returns (ok: bool)
      modifies this
      ensures ok == !throws
      ensures items == if ok then old(items) - {key} else old(items)
      ensures accesses == old(accesses) + [Access.Remove(key)]
    {
      ok := !throws;
      if ok {
        items := items - {key};
      }
      accesses := accesses + [Access.Remove(key)];
    }
  }
}
