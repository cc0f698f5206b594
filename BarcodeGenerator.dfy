/** The barcode generator screen: the text field, the "generate" action that renders a CODE128
    barcode and, for a signed-in user, appends it to the `savedBarcodes` list in local storage,
    and the PNG download of the rendered canvas. */
module BarcodeGenerator {
  import opened Browser
  import opened JsText

  /** The one symbology the generator uses. */
  const Format := "CODE128"

  const EmptyDataToast := Toast("Fehler", "Bitte geben Sie Daten ein, um einen Barcode zu generieren", true)
  const LibraryLoadingToast := Toast("Fehler", "Barcode-Bibliothek l\U{E4}dt noch. Bitte versuchen Sie es erneut.", true)
  const SavedToast := Toast("Erfolg", "Barcode generiert und gespeichert!", false)
  const SaveFailedToast := Toast("Erfolg", "Barcode generiert! (Speichern fehlgeschlagen)", false)
  const GeneratedToast := Toast("Erfolg", "Barcode erfolgreich generiert!", false)
  const RenderFailedToast := Toast("Fehler", "Barcode-Generierung fehlgeschlagen. Bitte \U{FC}berpr\U{FC}fen Sie Ihre Eingabe.", true)
  const NoCanvasToast := Toast("Fehler", "Kein Barcode zum Herunterladen. Bitte generieren Sie zuerst einen.", true)
  const DownloadedToast := Toast("Erfolg", "Barcode erfolgreich heruntergeladen!", false)
  const DownloadFailedToast := Toast("Fehler", "Download fehlgeschlagen.", true)

  /** What the page's surroundings answer during one "generate": whether the barcode library
      script has loaded, whether the canvas is mounted, whether the library throws on this input,
      the clock (`Date.now()` and the ISO time) and whether `setItem` throws. */
  datatype Env = Env(libraryLoaded: bool, canvasPresent: bool, renderThrows: bool,
                     now: int, isoTime: string, setItemThrows: bool)

  /** The component's state fields. */
  datatype State = State(data: string, isGenerating: bool, isAuthenticated: bool)

  /** The outcome of one "generate": the new `data` and `isGenerating`, the new storage, the toast
      shown (none when the canvas is missing) and the storage calls made. */
  datatype Step = Step(data: string, isGenerating: bool, items: Items, toast: Option<Toast>,
                       accesses: seq<Access>)

  /** The record a successful save appends: the data as typed, untrimmed. */
  function NewRecord(data: string, env: Env): SavedBarcode {
    SavedBarcode(env.now, data, Format, env.isoTime)
  }

  /** The two early returns let the call through: the data is not blank (`data.trim()` is not
      empty, see `TrimEmptyIffAllWhitespace`) and the library is there. */
  predicate PassesGuards(s: State, env: Env) {
    !AllWhitespace(s.data) && env.libraryLoaded
  }

  /** The library drew the barcode onto the canvas without throwing. */
  predicate Rendered(s: State, env: Env) {
    PassesGuards(s, env) && env.canvasPresent && !env.renderThrows
  }

  /** The storage a signed-in save leaves behind, its toast and the storage calls it makes:
      the list is read; when it parses, the new record is pushed and the list written back. */
  function Save(items: Items, data: string, env: Env): (Items, Toast, seq<Access>) {
    match SavedRecords(items)
    case None => (items, SaveFailedToast, [Access.Get(SavedBarcodesKey)])
    case Some(rs) =>
      var stored := if env.setItemThrows then items
                    else items[SavedBarcodesKey := RecordArray(rs + [NewRecord(data, env)])];
      (stored, if env.setItemThrows then SaveFailedToast else SavedToast,
       [Access.Get(SavedBarcodesKey), Access.Set(SavedBarcodesKey)])
  }

  /** One press of "Barcode Generieren" from state `s` with storage `items`. What it means is
      stated by the lemmas that follow it. */
  function Generate(s: State, items: Items, env: Env): Step
  {
    if AllWhitespace(s.data) then
      Step(s.data, s.isGenerating, items, Some(EmptyDataToast), [])
    else if !env.libraryLoaded then
      Step(s.data, s.isGenerating, items, Some(LibraryLoadingToast), [])
    else if !env.canvasPresent then
      Step(s.data, false, items, None, [])
    else if env.renderThrows then
      Step(s.data, false, items, Some(RenderFailedToast), [])
    else if !s.isAuthenticated then
      Step("", false, items, Some(GeneratedToast), [])
    else
      var (stored, toast, accesses) := Save(items, s.data, env);
      Step("", false, stored, Some(toast), accesses)
  }

  /** The early returns render nothing, store nothing and leave `isGenerating` untouched; once
      past them `isGenerating` ends false whatever happens, and `data` is cleared exactly when
      the barcode was drawn. */
  lemma GenerateState(s: State, items: Items, env: Env)
    ensures var r := Generate(s, items, env);
            && (!PassesGuards(s, env) ==>
                  r == Step(s.data, s.isGenerating, items,
                            Some(if AllWhitespace(s.data) then EmptyDataToast else LibraryLoadingToast), []))
            && (PassesGuards(s, env) ==> !r.isGenerating)
            && r.data == if Rendered(s, env) then "" else s.data
  {
  }

  /** A signed-out user's generate never reads or writes storage; storage changes only by
      appending the new record at the end of a readable list, and it does so whenever the user
      is signed in, the list is readable and the write succeeds. */
  lemma GenerateStorage(s: State, items: Items, env: Env)
    ensures var r := Generate(s, items, env);
            && (!s.isAuthenticated ==> r.items == items && r.accesses == [])
            && (r.items == items
                || (Rendered(s, env) && s.isAuthenticated && SavedRecords(items).Some?
                    && r.items == items[SavedBarcodesKey := RecordArray(SavedRecords(items).value + [NewRecord(s.data, env)])]))
            && (Rendered(s, env) && s.isAuthenticated && SavedRecords(items).Some? && !env.setItemThrows ==>
                  r.items != items)
  {
  }

  /** Every drawn barcode gets an "Erfolg" toast, even when the save failed; a missing canvas
      ends the call silently. */
  lemma GenerateToast(s: State, items: Items, env: Env)
    ensures var r := Generate(s, items, env);
            && (Rendered(s, env) ==> r.toast.Some? && r.toast.value.title == "Erfolg")
            && (r.toast.None? <==> PassesGuards(s, env) && !env.canvasPresent)
  {
  }

  /** What a generate writes is the decoded list, so storage stays in the form the model reads. */
  lemma GenerateKeepsCanonical(s: State, items: Items, env: Env)
    requires Canonical(items)
    ensures Canonical(Generate(s, items, env).items)
  {
  }

  /** After a successful signed-in save the list has grown by exactly the new record, at the end;
      the earlier records are the same and in the same order, and no other key changed. */
  lemma SaveAppendsOneRecord(s: State, items: Items, env: Env)
    requires Rendered(s, env) && s.isAuthenticated && SavedRecords(items).Some? && !env.setItemThrows
    ensures var before := SavedRecords(items).value;
            var after := SavedRecords(Generate(s, items, env).items);
            && after.Some?
            && |after.value| == |before| + 1
            && after.value[..|before|] == before
            && after.value[|before|] == SavedBarcode(env.now, s.data, "CODE128", env.isoTime)
    ensures forall k :: k != SavedBarcodesKey ==>
              GetItem(Generate(s, items, env).items, k) == GetItem(items, k)
    ensures Generate(s, items, env).toast == Some(SavedToast)
  {
    var before := SavedRecords(items).value;
    assert (before + [NewRecord(s.data, env)])[..|before|] == before;
  }

  /** A failed save (unreadable list or refused write) leaves storage exactly as it was,
      yet the toast is still the "Erfolg" one. */
  lemma FailedSaveStillReportsSuccess(s: State, items: Items, env: Env)
    requires Rendered(s, env) && s.isAuthenticated && Canonical(items)
    requires SavedRecords(items).None? || env.setItemThrows
    ensures Generate(s, items, env).items == items
    ensures Generate(s, items, env).toast == Some(Toast("Erfolg", "Barcode generiert! (Speichern fehlgeschlagen)", false))
  {
  }

  /** A render that throws saves nothing and keeps the typed data. */
  lemma RenderFailureKeepsData(s: State, items: Items, env: Env)
    requires PassesGuards(s, env) && env.canvasPresent && env.renderThrows
    ensures var r := Generate(s, items, env);
            r.items == items && r.accesses == [] && r.data == s.data && !r.isGenerating
            && r.toast == Some(RenderFailedToast)
  {
  }

  /** `disabled={isGenerating || !data.trim()}`, negated. */
  predicate GenerateEnabled(isGenerating: bool, data: string) {
    !isGenerating && !AllWhitespace(data)
  }

  /** The button is enabled exactly when nothing is being generated and the data holds a
      non-whitespace character; a press of an enabled button is never refused as empty. */
  lemma GenerateEnabledMeaning(s: State, items: Items, env: Env)
    ensures GenerateEnabled(s.isGenerating, s.data) <==> !s.isGenerating && Trim(s.data) != ""
    ensures GenerateEnabled(s.isGenerating, s.data) ==> Generate(s, items, env).toast != Some(EmptyDataToast)
  {
    TrimEmptyIffAllWhitespace(s.data);
  }

  /** The outcome of the "Herunterladen" button: whether a PNG was offered and the toast shown. */
  datatype DownloadOutcome = DownloadOutcome(downloaded: bool, toast: Toast)

  /** `downloadBarcode`: without a canvas nothing is exported; otherwise `toDataURL` may throw. */
  function Download(canvasPresent: bool, exportThrows: bool): (r: DownloadOutcome)
    ensures r.downloaded <==> canvasPresent && !exportThrows
    ensures r.toast.destructive <==> !r.downloaded
    ensures !canvasPresent ==> r.toast == NoCanvasToast
  {
    if !canvasPresent then DownloadOutcome(false, NoCanvasToast)
    else if exportThrows then DownloadOutcome(false, DownloadFailedToast)
    else DownloadOutcome(true, DownloadedToast)
  }

  /** The generator component, bound to the page's local storage. */
  class Generator {
    var data: string
    var isGenerating: bool
    var isAuthenticated: bool
    const store: LocalStorage

    ghost function Snapshot(): State
      reads this
    {
      State(data, isGenerating, isAuthenticated)
    }

    /** Mounting: empty field, idle, and the sign-in flag read once from storage. */
    constructor (store: LocalStorage)
      modifies store
      ensures this.store == store
      ensures data == "" && !isGenerating
      ensures isAuthenticated == AuthenticatedFlag(old(store.items))
      ensures store.items == old(store.items)
      ensures store.accesses == old(store.accesses) + [Access.Get(AuthenticatedKey)]
    {
      this.store := store;
      data := "";
      isGenerating := false;
      var v := store.Get(AuthenticatedKey);
      isAuthenticated := v == Some(Text("true"));
    }

    /** The text field's `onChange`. */
    method OnDataChange(value: string)
      modifies this
      ensures data == value
      ensures isGenerating == old(isGenerating) && isAuthenticated == old(isAuthenticated)
    {
      data := value;
    }

    /** The signed-in save inside `generateBarcode`: read and parse the list, push the new
        record and write the list back; a parse failure or a throwing write is caught. */
    method SaveRecord(env: Env) returns (toast: Toast)
      modifies store
      ensures var (stored, shown, accesses) := Save(old(store.items), data, env);
              store.items == stored && toast == shown && store.accesses == old(store.accesses) + accesses
    {
      var stored := store.Get(SavedBarcodesKey);
      var list := ParseSaved(stored);
      if list.Some? {
        var ok := store.Set(SavedBarcodesKey, RecordArray(list.value + [NewRecord(data, env)]), env.setItemThrows);
        toast := if ok then SavedToast else SaveFailedToast;
      } else {
        toast := SaveFailedToast;
      }
    }

    /** `generateBarcode`, step by step. */
    method GenerateBarcode(env: Env) returns (toast: Option<Toast>)
      modifies this, store
      ensures var r := Generate(old(Snapshot()), old(store.items), env);
              && data == r.data && isGenerating == r.isGenerating
              && store.items == r.items && toast == r.toast
              && store.accesses == old(store.accesses) + r.accesses
      ensures isAuthenticated == old(isAuthenticated)
    {
      // The outcome the contract promises; each path below is asserted to reach it.
      ghost var promised := Generate(Snapshot(), store.items, env);
      if AllWhitespace(data) {
        toast := Some(EmptyDataToast);
        assert toast == promised.toast && store.items == promised.items;
        return;
      }
      if !env.libraryLoaded {
        toast := Some(LibraryLoadingToast);
        assert toast == promised.toast && store.items == promised.items;
        return;
      }
      isGenerating := true;
      toast := None;
      if env.canvasPresent {
        if env.renderThrows {
          toast := Some(RenderFailedToast);
        } else {
          if isAuthenticated {
            var shown := SaveRecord(env);
            assert store.items == promised.items && Some(shown) == promised.toast;
            toast := Some(shown);
          } else {
            toast := Some(GeneratedToast);
          }
          data := "";
        }
      }
      assert toast == promised.toast && store.items == promised.items && data == promised.data;
      isGenerating := false;
    }
  }
}
