/** The top navigation bar: which link is highlighted, whether the sign-out button or the login
    link is shown, and signing out, which forgets the local session and saved barcodes. */
module Navigation {
  import opened Browser
  import BarcodeGenerator

  const HomeRoute := "/"
  const DashboardRoute := "/dashboard"

  const SignedOutToast := Toast("Erfolg", "Erfolgreich abgemeldet!", false)
  const SignOutFailedToast := Toast("Fehler", "Abmeldung fehlgeschlagen", true)

  /** `variant={pathname === "/" ? "default" : "ghost"}` on the Generator link. */
  predicate GeneratorLinkActive(pathname: string) {
    pathname == HomeRoute
  }

  /** `variant={pathname === "/dashboard" ? "default" : "ghost"}` on the Dashboard link. */
  predicate DashboardLinkActive(pathname: string) {
    pathname == DashboardRoute
  }

  /** At most one link is highlighted, and a page below the dashboard highlights neither. */
  lemma ActiveLinks(pathname: string, rest: string)
    ensures !(GeneratorLinkActive(pathname) && DashboardLinkActive(pathname))
    ensures rest != "" ==> !DashboardLinkActive(DashboardRoute + rest) && !GeneratorLinkActive(DashboardRoute + rest)
  {
    if rest != "" {
      assert |DashboardRoute + rest| > |DashboardRoute|;
    }
  }

  /** The control at the right end of the bar. */
  datatype AuthControl = SignOutButton | LoginLink

  function Control(isAuthenticated: bool): (c: AuthControl)
    ensures c == SignOutButton <==> isAuthenticated
    ensures c == LoginLink <==> !isAuthenticated
  {
    if isAuthenticated then SignOutButton else LoginLink
  }

  /** The storage a successful sign-out leaves: the two keys gone, every other key as it was;
      afterwards the sign-in flag reads false and the saved list reads empty. */
  lemma SignOutForgetsSession(items: Items)
    ensures var after := items - {AuthenticatedKey, SavedBarcodesKey};
            && !AuthenticatedFlag(after)
            && SavedRecords(after) == Some([])
            && (forall k :: k != AuthenticatedKey && k != SavedBarcodesKey ==> GetItem(after, k) == GetItem(items, k))
  {
  }

  /** A generator mounted after a sign-out believes the user signed out, so no later generate
      reads or writes storage. */
  lemma GenerateAfterSignOutLeavesStorage(items: Items, data: string, isGenerating: bool, env: BarcodeGenerator.Env)
    ensures var after := items - {AuthenticatedKey, SavedBarcodesKey};
            var s := BarcodeGenerator.State(data, isGenerating, AuthenticatedFlag(after));
            && BarcodeGenerator.Generate(s, after, env).items == after
            && BarcodeGenerator.Generate(s, after, env).accesses == []
  {
  }

  /** The generator on the home page keeps the flag it read when it mounted. A sign-out from the
      navigation bar on the same page does not change that cached flag. So the next drawn
      barcode is saved again, into a fresh list holding only the new record, even though
      storage now says the user is signed out. */
  lemma StaleFlagSavesAfterSignOut(items: Items, data: string, env: BarcodeGenerator.Env)
    requires AuthenticatedFlag(items)
    requires BarcodeGenerator.Rendered(BarcodeGenerator.State(data, false, true), env) && !env.setItemThrows
    ensures var after := items - {AuthenticatedKey, SavedBarcodesKey};
            var s := BarcodeGenerator.State(data, false, AuthenticatedFlag(items));
            var r := BarcodeGenerator.Generate(s, after, env);
            && !AuthenticatedFlag(after)
            && r.items == after[SavedBarcodesKey := RecordArray([BarcodeGenerator.NewRecord(data, env)])]
            && r.toast == Some(BarcodeGenerator.SavedToast)
  {
    var after := items - {AuthenticatedKey, SavedBarcodesKey};
    assert SavedRecords(after) == Some([]);
    assert [] + [BarcodeGenerator.NewRecord(data, env)] == [BarcodeGenerator.NewRecord(data, env)];
  }

  /** The home page as written: the navigation bar and the generator mount on one storage; the
      user types, signs out from the bar (both removals succeed) and presses "generate". The
      record is saved although the sign-in flag is gone. */
  method SignOutThenGenerateOnHomePage(store: LocalStorage, data: string, env: BarcodeGenerator.Env)
      returns (toast: Option<Toast>)
    requires AuthenticatedFlag(store.items)
    requires BarcodeGenerator.Rendered(BarcodeGenerator.State(data, false, true), env) && !env.setItemThrows
    modifies store
    ensures !AuthenticatedFlag(store.items)
    ensures SavedRecords(store.items) == Some([BarcodeGenerator.NewRecord(data, env)])
    ensures toast == Some(BarcodeGenerator.SavedToast)
  {
    var nav := new Nav(store);
    var generator := new BarcodeGenerator.Generator(store);
    generator.OnDataChange(data);
    var items := store.items;
    var signedOut := nav.HandleSignOut(false, false);
    var after := store.items;
    assert after == items - {AuthenticatedKey, SavedBarcodesKey};
    assert generator.Snapshot() == BarcodeGenerator.State(data, false, AuthenticatedFlag(items));
    StaleFlagSavesAfterSignOut(items, data, env);
    toast := generator.GenerateBarcode(env);
    assert store.items == after[SavedBarcodesKey := RecordArray([BarcodeGenerator.NewRecord(data, env)])];
  }

  /** The navigation component, bound to the page's local storage. */
  class Nav {
    var isAuthenticated: bool
    const store: LocalStorage
    /** The routes pushed onto the router, oldest first. */
    var navigations: seq<string>

    /** Mounting: the sign-in flag is read once from storage. */
    constructor (store: LocalStorage)
      modifies store
      ensures this.store == store && navigations == []
      ensures isAuthenticated == AuthenticatedFlag(old(store.items))
      ensures store.items == old(store.items)
      ensures store.accesses == old(store.accesses) + [Access.Get(AuthenticatedKey)]
    {
      this.store := store;
      navigations := [];
      var v := store.Get(AuthenticatedKey);
      isAuthenticated := v == Some(Text("true"));
    }

    function ShownControl(): AuthControl
      reads this
    {
      Control(isAuthenticated)
    }

    /** `handleSignOut`. `firstThrows` and `secondThrows` say whether the first or second
        `removeItem` threw. A throw skips the rest of the `try`: the flag, the toast and the push.
        A removal that already happened stays done. */
    method HandleSignOut(firstThrows: bool, secondThrows: bool) returns (toast: Toast)
      modifies this, store
      ensures firstThrows ==>
                && store.items == old(store.items)
                && store.accesses == old(store.accesses) + [Access.Remove(AuthenticatedKey)]
      ensures !firstThrows ==>
                store.accesses == old(store.accesses) + [Access.Remove(AuthenticatedKey), Access.Remove(SavedBarcodesKey)]
      ensures !firstThrows && secondThrows ==> store.items == old(store.items) - {AuthenticatedKey}
      ensures !firstThrows && !secondThrows ==>
                && store.items == old(store.items) - {AuthenticatedKey, SavedBarcodesKey}
                && !isAuthenticated && ShownControl() == LoginLink
                && navigations == old(navigations) + [HomeRoute]
                && toast == SignedOutToast
      ensures firstThrows || secondThrows ==>
                && isAuthenticated == old(isAuthenticated) && navigations == old(navigations)
                && toast == SignOutFailedToast
    {
      var ok := store.Remove(AuthenticatedKey, firstThrows);
      if !ok {
        toast := SignOutFailedToast;
        return;
      }
      ok := store.Remove(SavedBarcodesKey, secondThrows);
      if !ok {
        toast := SignOutFailedToast;
        return;
      }
      isAuthenticated := false;
      toast := SignedOutToast;
      navigations := navigations + [HomeRoute];
    }
  }
}
