/**
 * The session gate: the auth context provider (the component the source names
 * `HashRouter`, src/App.js:170-186), the header of `Layout` (src/App.js:207-219)
 * and `AuthRequired` (src/App.js:227-255). The user is an optional name kept in
 * memory only; nothing is checked against any identity service.
 */
module Session {
  import opened Wrappers

  /** JavaScript truthiness of `auth.user`: `null` and the empty string are falsy. */
  predicate SignedIn(user: Option<string>) {
    user.Some? && user.value != ""
  }

  /** The status line `Layout` renders above the routed content. */
  datatype Header =
    | Greeting(name: string)   // "{user} 님 안녕하세요" with a sign-out button
    | LoginPrompt              // "로그인 해주세요!!"

  function HeaderFor(user: Option<string>): (h: Header)
    ensures h.Greeting? <==> SignedIn(user)
    ensures h.Greeting? ==> h.name == user.value
  {
    if user.Some? && user.value != "" then Greeting(user.value) else LoginPrompt
  }

  /** What `AuthRequired` renders in place of its children. */
  datatype Gate<T> = Content(content: T) | LoginForm

  function Gated<T>(user: Option<string>, content: T): (g: Gate<T>)
    ensures g.Content? <==> SignedIn(user)
    ensures g.Content? ==> g.content == content
  {
    if user.Some? && user.value != "" then Content(content) else LoginForm
  }

  /** The gated content and the greeting appear together, or neither does. */
  lemma GateAndHeaderAgree<T>(user: Option<string>, content: T)
    ensures Gated(user, content).Content? <==> HeaderFor(user).Greeting?
  {
  }

  /**
   * The name the login form hands to `signIn`, if it is submitted at all: the
   * username field is `required`, so an empty field never reaches `handleSubmit`.
   */
  function SubmittedName(field: string): (r: Option<string>)
    ensures r.Some? <==> field != ""
    ensures r.Some? ==> r.value == field && SignedIn(r)
  {
    if field == "" then None else Some(field)
  }

  /** The context provider holding `user`, with `signIn` and `signOut`. */
  class AuthProvider {
    var user: Option<string>

    /** `useState(null)`. */
    constructor ()
      ensures user == None && !SignedIn(user)
    {
      user := None;
    }

    /** `signIn(username)`: `setUser(username)`. */
    method SignIn(username: string)
      modifies this
      ensures user == Some(username)
      ensures SignedIn(user) <==> username != ""
    {
      user := Some(username);
    }

    /** `signOut()`: `setUser(null)`. */
    method SignOut()
      modifies this
      ensures user == None
      ensures HeaderFor(user) == LoginPrompt
    {
      user := None;
    }

    /** Submitting the login form of `AuthRequired` with the username field's text. */
    method SubmitLoginForm(field: string)
      modifies this
      ensures user == if field == "" then old(user) else Some(field)
      ensures field != "" ==> SignedIn(user) && HeaderFor(user) == Greeting(field)
    {
      match SubmittedName(field)
      case Some(name) => SignIn(name);
      case None =>
    }
  }
}
