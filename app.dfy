/** The application shell (App.tsx): which screen `AppContent` shows, the
    home page's menu, package and equipment-category state, and the auth
    dialog's open flag, which lives in two unconnected places. */
module Shell {
  import opened Common
  import Auth
  import AuthDialog

  datatype Screen = Spinner | DashboardScreen | HomeScreen

  /** `AppContent`: the spinner while the session is loading, whoever the
      user is; then the dashboard for a signed-in user and the home page otherwise. */
  function ContentScreen(loading: bool, user: Option<Auth.User>): (r: Screen)
    ensures loading ==> r == Spinner
    ensures r == DashboardScreen <==> !loading && user.Some?
    ensures r == HomeScreen <==> !loading && user.None?
  {
    if loading then Spinner else if user.Some? then DashboardScreen else HomeScreen
  }

  /** Right after mounting, the provider is still looking the user up. */
  method FirstScreen() returns (s: Screen)
    ensures s == Spinner
  {
    var auth := new Auth.AuthProvider();
    s := ContentScreen(auth.loading, auth.user);
  }

  /** The keys of `equipmentCategories`, in order. */
  const EquipmentCategories: seq<string> := ["cameras", "lenses", "accessories", "lighting"]

  /** The names of the short-form content packages. */
  const PackageNames: seq<string> := ["Basic", "Standard", "Premium"]

  /** A click on a package card: the open card closes, any other card opens
      (and the previously open one closes). */
  function ClickPackage(selected: Option<string>, name: string): (r: Option<string>)
    ensures r == None <==> selected == Some(name)
    ensures r != None ==> r == Some(name)
  {
    if selected == Some(name) then None else Some(name)
  }

  class HomePage {
    var isMenuOpen: bool
    var selectedPackage: Option<string>
    var activeEquipmentCategory: string

    /** The category shown is a key of `equipmentCategories`, so its lookup
        never fails; the selection, if any, is a package. */
    ghost predicate Valid()
      reads this
    {
      activeEquipmentCategory in EquipmentCategories
      && (selectedPackage.Some? ==> selectedPackage.value in PackageNames)
    }

    constructor ()
      ensures Valid()
      ensures !isMenuOpen && selectedPackage == None && activeEquipmentCategory == "cameras"
    {
      isMenuOpen := false;
      selectedPackage := None;
      activeEquipmentCategory := "cameras";
    }

    /** `scrollToSection`: the mobile menu closes whether or not an element has
        the id; the scrolling itself is not modelled. */
    method ScrollToSection(id: string, elementExists: bool)
      modifies this`isMenuOpen
      ensures !isMenuOpen
    {
      isMenuOpen := false;
    }

    /** The mobile menu button. */
    method ToggleMenu()
      modifies this`isMenuOpen
      ensures isMenuOpen == !old(isMenuOpen)
    {
      isMenuOpen := !isMenuOpen;
    }

    method SelectPackage(name: string)
      requires Valid() && name in PackageNames
      modifies this`selectedPackage
      ensures Valid()
      ensures selectedPackage == ClickPackage(old(selectedPackage), name)
    {
      selectedPackage := ClickPackage(selectedPackage, name);
    }

    /** A click on one of the category buttons, one per key of `equipmentCategories`. */
    method SelectCategory(key: string)
      requires Valid() && key in EquipmentCategories
      modifies this`activeEquipmentCategory
      ensures Valid() && activeEquipmentCategory == key
    {
      activeEquipmentCategory := key;
    }

    /** Position of the shown category among the categories: the lookup succeeds. */
    function CategoryIndex(): (i: nat)
      reads this
      requires Valid()
      ensures i < |EquipmentCategories| && EquipmentCategories[i] == activeEquipmentCategory
    {
      if activeEquipmentCategory == "cameras" then 0
      else if activeEquipmentCategory == "lenses" then 1
      else if activeEquipmentCategory == "accessories" then 2
      else 3
    }
  }

  /** `AppContent`'s own auth-dialog state, set by the home page's Sign In and
      Get Started buttons and read by nothing. */
  class AppContent {
    var authModalOpen: bool
    var authMode: AuthDialog.Mode

    constructor ()
      ensures !authModalOpen && authMode == AuthDialog.SignInMode
    {
      authModalOpen := false;
      authMode := AuthDialog.SignInMode;
    }

    /** The `onAuthOpen` callback handed to the home page. */
    method OnAuthOpen(mode: AuthDialog.Mode)
      requires mode != AuthDialog.ResetMode
      modifies this
      ensures authModalOpen && authMode == mode
    {
      authMode := mode;
      authModalOpen := true;
    }
  }

  /** The top-level `App` as written: it renders the one `AuthModal` of the
      application from its own `authModalOpen` flag, which only the dialog's
      `onClose` ever assigns, and only to false. */
  class App {
    var authModalOpen: bool
    var authMode: AuthDialog.Mode

    /** The dialog `App` renders is closed. */
    predicate Closed()
      reads this
    {
      !authModalOpen
    }

    constructor ()
      ensures Closed() && authMode == AuthDialog.SignInMode
    {
      authModalOpen := false;
      authMode := AuthDialog.SignInMode;
    }

    /** The dialog's `onClose`: the only assignment to the flag in the source. */
    method CloseAuthModal()
      modifies this`authModalOpen
      ensures Closed()
    {
      authModalOpen := false;
    }

    /** Whatever state the mounted dialog is in, `App` renders nothing. */
    function Dialog(modal: AuthDialog.AuthModal): (r: Option<AuthDialog.Screen>)
      reads this, modal
      requires Closed()
      ensures r.None?
    {
      AuthDialog.Render(authModalOpen, modal.mode, modal.loading)
    }
  }

  /** `App` with the corrected wiring: the home page's buttons reach the
      flag and mode this component renders the dialog from. */
  class WiredApp {
    var authModalOpen: bool
    var authMode: AuthDialog.Mode

    constructor ()
      ensures !authModalOpen && authMode == AuthDialog.SignInMode
    {
      authModalOpen := false;
      authMode := AuthDialog.SignInMode;
    }

    method CloseAuthModal()
      modifies this`authModalOpen
      ensures !authModalOpen
    {
      authModalOpen := false;
    }

    /** The corrected `onAuthOpen`. */
    method OpenAuthModal(mode: AuthDialog.Mode)
      requires mode != AuthDialog.ResetMode
      modifies this
      ensures authModalOpen && authMode == mode
    {
      authMode := mode;
      authModalOpen := true;
    }
  }

  /** As written: a click on Sign In updates `AppContent`'s flag, the rendered
      dialog reads `App`'s, so nothing is shown. */
  method SignInClickAsWritten() returns (shown: Option<AuthDialog.Screen>)
    ensures shown == None
  {
    var app := new App();
    var content := new AppContent();
    var modal := new AuthDialog.AuthModal(app.authMode);
    content.OnAuthOpen(AuthDialog.SignInMode);
    shown := app.Dialog(modal);
  }

  /** Corrected: the click opens the rendered dialog on the sign-in form. */
  method SignInClickCorrected() returns (shown: Option<AuthDialog.Screen>)
    ensures shown.Some? && shown.value.mode == AuthDialog.SignInMode
    ensures shown.value.title == "Sign In" && !shown.value.submitDisabled
  {
    var app := new WiredApp();
    var modal := new AuthDialog.AuthModal(app.authMode);
    app.OpenAuthModal(AuthDialog.SignInMode);
    shown := AuthDialog.Render(app.authModalOpen, modal.mode, modal.loading);
  }

  /** Even with the corrected wiring, Get Started opens the sign-in form: the
      dialog stays mounted and took its mode from `initialMode` once, when
      `authMode` was still `signin`. */
  method GetStartedClickCorrected() returns (shown: Option<AuthDialog.Screen>)
    ensures shown.Some? && shown.value.mode == AuthDialog.SignInMode
    ensures shown.value.title == "Sign In"
  {
    var app := new WiredApp();
    var modal := new AuthDialog.AuthModal(app.authMode);
    app.OpenAuthModal(AuthDialog.SignUpMode);
    shown := AuthDialog.Render(app.authModalOpen, modal.mode, modal.loading);
  }
}
