/** The application shell (src/App.tsx): who is signed in, which page is open, whether
    the start-up check is still running, and the two entries of the browser's local
    storage that keep a session across page loads. */
module App {
  import opened Types

  datatype Page = LoginPage | SignupPage | TodosPage

  /** What the shell renders. */
  datatype Screen = Spinner | TodoScreen(user: User) | SignupScreen | LoginScreen

  /** JSON.stringify and JSON.parse for the stored user. Both are outside the model: a
      shell is given the pair it uses, and a parse that throws is `None`. */
  datatype UserCodec = UserCodec(stringify: User -> string, parse: string -> Option<User>)

  const TokenKey := "token"
  const UserKey := "user"

  /** `localStorage.getItem(key)` is truthy: the key is stored and its value is not "". */
  predicate HasValue(storage: map<string, string>, key: string)
  {
    key in storage && storage[key] != ""
  }

  /** Both session entries are stored and non-empty. */
  predicate HasStoredSession(storage: map<string, string>)
  {
    HasValue(storage, TokenKey) && HasValue(storage, UserKey)
  }

  /** The shell's state: `user`, `currentPage`, `loading` and local storage. */
  datatype Shell = Shell(user: Option<User>, page: Page, loading: bool, storage: map<string, string>)

  /** The state a page load starts in, over whatever local storage holds. */
  function Mount(storage: map<string, string>): Shell
  {
    Shell(None, LoginPage, true, storage)
  }

  /** The start-up effect. With both entries stored and a user that parses, that user is
      signed in on the todo page; with both stored and a user that does not parse, both
      entries are removed and user and page are kept; with either entry missing or
      empty nothing but `loading` changes. Loading is over on every path. */
  function Restore(s: Shell, codec: UserCodec): (r: Shell)
    ensures !r.loading
    ensures HasStoredSession(s.storage) && codec.parse(s.storage[UserKey]).Some? ==>
              r.user == codec.parse(s.storage[UserKey]) && r.page == TodosPage && r.storage == s.storage
    ensures HasStoredSession(s.storage) && codec.parse(s.storage[UserKey]).None? ==>
              && r.storage == s.storage - {TokenKey, UserKey}
              && TokenKey !in r.storage && UserKey !in r.storage
              && r.user == s.user && r.page == s.page
    ensures !HasStoredSession(s.storage) ==> r == s.(loading := false)
  {
    var next :=
      if HasStoredSession(s.storage) then
        match codec.parse(s.storage[UserKey])
        case Some(u) => s.(user := Some(u), page := TodosPage)
        case None => s.(storage := s.storage - {TokenKey} - {UserKey})
      else s;
    next.(loading := false)
  }

  /** `handleLogin`: the user is signed in, the token and the serialised user are
      stored, other entries are kept, and the todo page opens. */
  function Login(s: Shell, u: User, token: string, codec: UserCodec): (r: Shell)
    ensures r.user == Some(u) && r.page == TodosPage && r.loading == s.loading
    ensures TokenKey in r.storage && r.storage[TokenKey] == token
    ensures UserKey in r.storage && r.storage[UserKey] == codec.stringify(u)
    ensures r.storage.Keys == s.storage.Keys + {TokenKey, UserKey}
    ensures forall k :: k in s.storage && k != TokenKey && k != UserKey ==>
              k in r.storage && r.storage[k] == s.storage[k]
  {
    s.(user := Some(u), storage := s.storage[TokenKey := token][UserKey := codec.stringify(u)],
       page := TodosPage)
  }

  /** `handleLogout`: nobody is signed in, both session entries are gone, other entries
      are kept, and the login page opens. */
  function Logout(s: Shell): (r: Shell)
    ensures r.user.None? && r.page == LoginPage && r.loading == s.loading
    ensures TokenKey !in r.storage && UserKey !in r.storage
    ensures r.storage.Keys == s.storage.Keys - {TokenKey, UserKey}
    ensures forall k :: k in s.storage && k != TokenKey && k != UserKey ==>
              k in r.storage && r.storage[k] == s.storage[k]
  {
    s.(user := None, storage := s.storage - {TokenKey} - {UserKey}, page := LoginPage)
  }

  /** What the shell renders: a spinner while loading; the todo screen exactly when the
      page is the todo page and someone is signed in; otherwise the signup page when it
      is open, and the login page in every other case. */
  function Gate(s: Shell): (screen: Screen)
    ensures s.loading <==> screen.Spinner?
    ensures screen.TodoScreen? <==> !s.loading && s.page == TodosPage && s.user.Some?
    ensures screen.TodoScreen? ==> s.user == Some(screen.user)
    ensures screen.SignupScreen? <==> !s.loading && s.page == SignupPage
    ensures screen.LoginScreen? <==>
              !s.loading && (s.page == LoginPage || (s.page == TodosPage && s.user.None?))
  {
    if s.loading then Spinner
    else match s.page
      case TodosPage => if s.user.Some? then TodoScreen(s.user.value) else LoginScreen
      case SignupPage => SignupScreen
      case LoginPage => LoginScreen
  }

  /** A session survives a page load: after signing in with a non-empty token, under a
      codec whose parse undoes its stringify and whose output is not empty, the next
      page load signs the same user in again and shows the todo screen. */
  lemma LoginSurvivesReload(s: Shell, u: User, token: string, codec: UserCodec)
    requires token != ""
    requires codec.stringify(u) != "" && codec.parse(codec.stringify(u)) == Some(u)
    ensures var r := Restore(Mount(Login(s, u, token, codec).storage), codec);
            r.user == Some(u) && r.page == TodosPage && Gate(r) == TodoScreen(u)
  {
  }

  /** Signing out also ends the stored session: the next page load shows the login page
      and leaves storage as the sign-out left it. */
  lemma LogoutSurvivesReload(s: Shell, codec: UserCodec)
    ensures var stored := Logout(s).storage;
            var r := Restore(Mount(stored), codec);
            r.user.None? && r.page == LoginPage && r.storage == stored && Gate(r) == LoginScreen
  {
  }

  /** A corrupted stored session heals once: a second start-up over what the first one
      left in storage changes nothing in storage. */
  lemma RestoreHealsStorage(storage: map<string, string>, codec: UserCodec)
    ensures var once := Restore(Mount(storage), codec).storage;
            Restore(Mount(once), codec).storage == once
  {
  }

  /** The shell component. */
  class App {
    const codec: UserCodec
    var user: Option<User>
    var currentPage: Page
    var loading: bool
    var storage: map<string, string>

    /** A page load over the given local storage, before the start-up effect runs. */
    constructor (codec: UserCodec, storage: map<string, string>)
      ensures this.codec == codec && State() == Mount(storage)
    {
      this.codec := codec;
      user := None;
      currentPage := LoginPage;
      loading := true;
      this.storage := storage;
    }

    function State(): Shell
      reads this
    {
      Shell(user, currentPage, loading, storage)
    }

    /** The start-up effect, run once after mounting. */
    method RestoreSession()
      modifies this`user, this`currentPage, this`loading, this`storage
      ensures State() == Restore(old(State()), codec)
    {
      var token := if TokenKey in storage then storage[TokenKey] else "";
      var userData := if UserKey in storage then storage[UserKey] else "";
      if token != "" && userData != "" {
        var parsed := codec.parse(userData);
        if parsed.Some? {
          user := parsed;
          currentPage := TodosPage;
        } else {
          storage := storage - {TokenKey};
          storage := storage - {UserKey};
        }
      }
      loading := false;
    }

    /** `handleLogin`, the callback of both the login and the signup page. */
    method HandleLogin(u: User, token: string)
      modifies this`user, this`currentPage, this`storage
      ensures State() == Login(old(State()), u, token, codec)
    {
      user := Some(u);
      storage := storage[TokenKey := token];
      storage := storage[UserKey := codec.stringify(u)];
      currentPage := TodosPage;
    }

    /** `handleLogout`, the todo screen's logout button. */
    method HandleLogout()
      modifies this`user, this`currentPage, this`storage
      ensures State() == Logout(old(State()))
    {
      user := None;
      storage := storage - {TokenKey};
      storage := storage - {UserKey};
      currentPage := LoginPage;
    }

    /** The links between the login and the signup page. */
    method SwitchPage(page: Page)
      requires page != TodosPage
      modifies this`currentPage
      ensures currentPage == page
    {
      currentPage := page;
    }

    /** What is rendered now: the spinner while loading, the todo screen for the signed-in
      user on the todo page, the signup page when it is open, and the login page in
      every other case. */
    function CurrentScreen(): (screen: Screen)
      reads this
      ensures loading <==> screen.Spinner?
      ensures screen.TodoScreen? <==> !loading && currentPage == TodosPage && user.Some?
      ensures screen.TodoScreen? ==> user == Some(screen.user)
      ensures screen.SignupScreen? <==> !loading && currentPage == SignupPage
      ensures screen.LoginScreen? <==>
                !loading && (currentPage == LoginPage || (currentPage == TodosPage && user.None?))
    {
      Gate(State())
    }
  }
}
