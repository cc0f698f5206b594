/** The dashboard's saved-barcode list: loading the signed-in user's rows from the hosted
    `barcodes` table, following sign-in changes, previewing, downloading and deleting a row,
    and which of the three screens (sign-in prompt, spinner, list) is shown. */
module BarcodeHistory {
  import opened Browser

  /** A row of the `barcodes` table as the component reads it. */
  datatype Barcode = Barcode(id: string, data: string, format: string, createdAt: string)

  /** The signed-in user as the identity service reports it; only its id is used. */
  datatype User = User(id: string)

  /** The answer to the list query: the rows (possibly `null`), or an error returned or thrown. */
  datatype LoadResponse = Rows(data: Option<seq<Barcode>>) | LoadFailed

  /** The answer to the delete query. */
  datatype DeleteResponse = DeleteOk | DeleteFailed

  /** A request sent to the table, with the only filter it carries. */
  datatype StoreRequest = SelectByUser(userId: string) | DeleteById(id: string)

  const LoginRoute := "/auth/login"

  const LoadFailedToast := Toast("Error", "Failed to load barcodes", true)
  const LibraryLoadingToast := Toast("Error", "Barcode library is still loading. Please try again.", true)
  const DownloadedToast := Toast("Success", "Barcode downloaded successfully!", false)
  const DownloadFailedToast := Toast("Error", "Failed to download barcode", true)
  const DeletedToast := Toast("Success", "Barcode deleted successfully!", false)
  const DeleteFailedToast := Toast("Error", "Failed to delete barcode", true)

  /** `data || []`: a `null` row list reads as empty. */
  function RowsOrEmpty(data: Option<seq<Barcode>>): (r: seq<Barcode>)
    ensures data.Some? ==> r == data.value
    ensures data.None? ==> r == []
  {
    match data
    case Some(rows) => rows
    case None => []
  }

  /** `prev.filter((b) => b.id !== id)`. */
  function WithoutId(xs: seq<Barcode>, id: string): (r: seq<Barcode>)
    ensures |r| <= |xs|
    ensures forall b :: b in r <==> b in xs && b.id != id
  {
    if xs == [] then []
    else
      assert xs == [xs[0]] + xs[1..];
      if xs[0].id != id then [xs[0]] + WithoutId(xs[1..], id) else WithoutId(xs[1..], id)
  }

  /** The filter keeps each record whose id differs exactly as often as it occurred, and none
      with that id. */
  lemma {:induction false} WithoutIdCounts(xs: seq<Barcode>, id: string)
    ensures forall b :: multiset(WithoutId(xs, id))[b] == if b.id == id then 0 else multiset(xs)[b]
  {
    if xs != [] {
      WithoutIdCounts(xs[1..], id);
      assert xs == [xs[0]] + xs[1..];
      assert multiset(xs) == multiset{xs[0]} + multiset(xs[1..]);
    }
  }

  /** Filtering distributes over concatenation, so the records kept appear in their original order. */
  lemma {:induction false} WithoutIdAppend(a: seq<Barcode>, b: seq<Barcode>, id: string)
    ensures WithoutId(a + b, id) == WithoutId(a, id) + WithoutId(b, id)
  {
    if a == [] {
      assert a + b == b;
    } else {
      assert (a + b)[1..] == a[1..] + b;
      WithoutIdAppend(a[1..], b, id);
    }
  }

  /** A list without a record of that id is left exactly as it was. */
  lemma {:induction false} WithoutIdUntouched(xs: seq<Barcode>, id: string)
    requires forall i :: 0 <= i < |xs| ==> xs[i].id != id
    ensures WithoutId(xs, id) == xs
  {
    if xs != [] {
      assert xs[0].id != id;
      WithoutIdUntouched(xs[1..], id);
      assert WithoutId(xs, id) == [xs[0]] + WithoutId(xs[1..], id);
      assert xs == [xs[0]] + xs[1..];
    }
  }

  /** Deleting the same id from the list a second time changes nothing. */
  lemma WithoutIdIdempotent(xs: seq<Barcode>, id: string)
    ensures WithoutId(WithoutId(xs, id), id) == WithoutId(xs, id)
  {
    var r := WithoutId(xs, id);
    forall i | 0 <= i < |r| ensures r[i].id != id {
      assert r[i] in r;
    }
    WithoutIdUntouched(r, id);
  }

  /** `a <= b` on strings, character by character (the order of same-format ISO timestamps). */
  predicate LexLe(a: string, b: string) {
    if a == [] then true
    else if b == [] then false
    else if a[0] != b[0] then a[0] < b[0]
    else LexLe(a[1..], b[1..])
  }

  /** Most recent first, as the query's `order("created_at", { ascending: false })` promises. */
  ghost predicate NewestFirst(xs: seq<Barcode>) {
    forall i, j :: 0 <= i < j < |xs| ==> LexLe(xs[j].createdAt, xs[i].createdAt)
  }

  /** Putting a record at least as new as every record of a newest-first list in front of it
      keeps the list newest first. */
  lemma ConsNewestFirst(x: Barcode, rest: seq<Barcode>)
    requires NewestFirst(rest)
    requires forall b :: b in rest ==> LexLe(b.createdAt, x.createdAt)
    ensures NewestFirst([x] + rest)
  {
    var r := [x] + rest;
    forall i, j | 0 <= i < j < |r| ensures LexLe(r[j].createdAt, r[i].createdAt) {
      assert r[j] == rest[j - 1];
      if i > 0 {
        assert r[i] == rest[i - 1];
      }
    }
  }

  /** Deleting keeps the store's newest-first order. */
  lemma {:induction false} WithoutIdNewestFirst(xs: seq<Barcode>, id: string)
    requires NewestFirst(xs)
    ensures NewestFirst(WithoutId(xs, id))
  {
    if xs != [] {
      var tail := xs[1..];
      assert NewestFirst(tail) by {
        forall i, j | 0 <= i < j < |tail| ensures LexLe(tail[j].createdAt, tail[i].createdAt) {
          assert tail[i] == xs[i + 1] && tail[j] == xs[j + 1];
        }
      }
      WithoutIdNewestFirst(tail, id);
      if xs[0].id != id {
        var rest := WithoutId(tail, id);
        forall b | b in rest ensures LexLe(b.createdAt, xs[0].createdAt) {
          var k :| 0 <= k < |tail| && tail[k] == b;
          assert xs[k + 1] == b;
        }
        ConsNewestFirst(xs[0], rest);
      }
    }
  }

  /** Which screen the dashboard shows. */
  datatype Screen = SignInPrompt | LoadingSpinner | ListView(list: seq<Barcode>, preview: Option<Barcode>)

  /** The render's gating: no user, then loading, then the list with the preview pane. */
  function View(user: Option<User>, isLoading: bool, barcodes: seq<Barcode>, selected: Option<Barcode>): (v: Screen)
    ensures v == SignInPrompt <==> user.None?
    ensures v.ListView? <==> user.Some? && !isLoading
    ensures v.ListView? ==> v.list == barcodes && v.preview == selected
  {
    if user.None? then SignInPrompt
    else if isLoading then LoadingSpinner
    else ListView(barcodes, selected)
  }

  /** The outcome of a row's download button: the image offered (its data and format) and the toast. */
  datatype DownloadOutcome = DownloadOutcome(image: Option<(string, string)>, toast: Toast)

  /** `downloadBarcode`: refused while the library loads; otherwise the library may throw. */
  function Download(b: Barcode, libraryLoaded: bool, renderThrows: bool): (r: DownloadOutcome)
    ensures r.image.Some? <==> libraryLoaded && !renderThrows
    ensures r.image.Some? ==> r.image.value == (b.data, b.format)
    ensures r.toast.destructive <==> r.image.None?
    ensures !libraryLoaded ==> r.toast == LibraryLoadingToast
  {
    if !libraryLoaded then DownloadOutcome(None, LibraryLoadingToast)
    else if renderThrows then DownloadOutcome(None, DownloadFailedToast)
    else DownloadOutcome(Some((b.data, b.format)), DownloadedToast)
  }

  /** The dashboard component. */
  class History {
    var barcodes: seq<Barcode>
    var isLoading: bool
    var selectedBarcode: Option<Barcode>
    var user: Option<User>
    /** The routes pushed onto the router, oldest first. */
    var navigations: seq<string>
    /** The queries sent to the table, oldest first. */
    ghost var requests: seq<StoreRequest>

    constructor ()
      ensures barcodes == [] && isLoading && selectedBarcode == None && user == None
      ensures navigations == [] && requests == []
    {
      barcodes := [];
      isLoading := true;
      selectedBarcode := None;
      user := None;
      navigations := [];
      requests := [];
    }

    function Screen(): Screen
      reads this
    {
      View(user, isLoading, barcodes, selectedBarcode)
    }

    /** `loadBarcodes(userId)`: the rows the store returned replace the list; a failure keeps the
        old list; either way loading ends. */
    method LoadBarcodes(userId: string, response: LoadResponse) returns (toast: Option<Toast>)
      modifies this
      ensures response.Rows? ==> barcodes == RowsOrEmpty(response.data) && toast == None
      ensures response.LoadFailed? ==> barcodes == old(barcodes) && toast == Some(LoadFailedToast)
      ensures !isLoading
      ensures selectedBarcode == old(selectedBarcode) && user == old(user)
      ensures navigations == old(navigations)
      ensures requests == old(requests) + [SelectByUser(userId)]
    {
      isLoading := true;
      requests := requests + [SelectByUser(userId)];
      toast := None;
      match response {
        case Rows(data) =>
          barcodes := RowsOrEmpty(data);
        case LoadFailed =>
          toast := Some(LoadFailedToast);
      }
      isLoading := false;
    }

    /** The mount effect: ask for the current user; without one go to the login page and load
        nothing, otherwise load that user's rows. */
    method Mount(current: Option<User>, response: LoadResponse) returns (toast: Option<Toast>)
      modifies this
      ensures user == current && selectedBarcode == old(selectedBarcode)
      ensures current.None? ==>
                && navigations == old(navigations) + [LoginRoute]
                && barcodes == old(barcodes) && isLoading == old(isLoading)
                && requests == old(requests) && toast == None && Screen() == SignInPrompt
      ensures current.Some? ==>
                && navigations == old(navigations)
                && requests == old(requests) + [SelectByUser(current.value.id)]
                && !isLoading
                && barcodes == (if response.Rows? then RowsOrEmpty(response.data) else old(barcodes))
                && toast == (if response.LoadFailed? then Some(LoadFailedToast) else None)
                && Screen() == ListView(barcodes, selectedBarcode)
    {
      user := current;
      if current.None? {
        navigations := navigations + [LoginRoute];
        toast := None;
        return;
      }
      toast := LoadBarcodes(current.value.id, response);
    }

    /** The `onAuthStateChange` listener: a session loads its user's rows, no session empties the
        list and goes to the login page. The preview selection is left as it was. */
    method OnAuthStateChange(session: Option<User>, response: LoadResponse) returns (toast: Option<Toast>)
      modifies this
      ensures user == session && selectedBarcode == old(selectedBarcode)
      ensures session.None? ==>
                && barcodes == [] && navigations == old(navigations) + [LoginRoute]
                && isLoading == old(isLoading) && requests == old(requests) && toast == None
      ensures session.Some? ==>
                && navigations == old(navigations)
                && requests == old(requests) + [SelectByUser(session.value.id)]
                && !isLoading
                && barcodes == (if response.Rows? then RowsOrEmpty(response.data) else old(barcodes))
                && toast == (if response.LoadFailed? then Some(LoadFailedToast) else None)
    {
      user := session;
      if session.Some? {
        toast := LoadBarcodes(session.value.id, response);
      } else {
        barcodes := [];
        navigations := navigations + [LoginRoute];
        toast := None;
      }
    }

    /** `viewBarcode`: refused while the library loads, otherwise the row becomes the preview. */
    method ViewBarcode(b: Barcode, libraryLoaded: bool) returns (toast: Option<Toast>)
      modifies this
      ensures selectedBarcode == if libraryLoaded then Some(b) else old(selectedBarcode)
      ensures toast == if libraryLoaded then None else Some(LibraryLoadingToast)
      ensures barcodes == old(barcodes) && isLoading == old(isLoading) && user == old(user)
      ensures navigations == old(navigations) && requests == old(requests)
    {
      if !libraryLoaded {
        toast := Some(LibraryLoadingToast);
        return;
      }
      selectedBarcode := Some(b);
      toast := None;
    }

    /** `deleteBarcode(id)`: the query filters by id alone; on success every row with that id
        leaves the list and a preview of that id is cleared; on failure nothing changes. */
    method DeleteBarcode(id: string, response: DeleteResponse) returns (toast: Toast)
      modifies this
      ensures requests == old(requests) + [DeleteById(id)]
      ensures barcodes == if response.DeleteOk? then WithoutId(old(barcodes), id) else old(barcodes)
      ensures selectedBarcode ==
                if response.DeleteOk? && old(selectedBarcode).Some? && old(selectedBarcode).value.id == id
                then None else old(selectedBarcode)
      ensures toast == if response.DeleteOk? then DeletedToast else DeleteFailedToast
      ensures NewestFirst(old(barcodes)) ==> NewestFirst(barcodes)
      ensures isLoading == old(isLoading) && user == old(user) && navigations == old(navigations)
    {
      requests := requests + [DeleteById(id)];
      if response.DeleteFailed? {
        toast := DeleteFailedToast;
        return;
      }
      ghost var before := barcodes;
      barcodes := WithoutId(barcodes, id);
      if NewestFirst(before) {
        WithoutIdNewestFirst(before, id);
      }
      if selectedBarcode.Some? && selectedBarcode.value.id == id {
        selectedBarcode := None;
      }
      toast := DeletedToast;
    }
  }
}
