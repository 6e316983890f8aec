/** The login form: the email check `/^[^\s@]+@[^\s@]+\.[^\s@]+$/` and `handleSubmit`'s
    updates of `error` and `isLoading`. */
module Login {
  import opened Wrappers
  import opened Sequences

  /** JavaScript's `\s`: the WhiteSpace and LineTerminator characters of ECMAScript,
      with the Unicode space separators (category Zs) written out. */
  predicate IsJsWhitespace(c: char) {
    || c == '\t' || c == '\n' || c == '\U{000B}' || c == '\U{000C}' || c == '\r' || c == ' '
    || c == '\U{00A0}' || c == '\U{1680}' || ('\U{2000}' <= c <= '\U{200A}')
    || c == '\U{2028}' || c == '\U{2029}' || c == '\U{202F}' || c == '\U{205F}'
    || c == '\U{3000}' || c == '\U{FEFF}'
  }

  /** The class `[^\s@]`. */
  predicate InAddressClass(c: char) {
    !IsJsWhitespace(c) && c != '@'
  }

  predicate AllInAddressClass(t: string) {
    forall i :: 0 <= i < |t| ==> InAddressClass(t[i])
  }

  /** The language of the pattern: three non-empty runs of `[^\s@]`, the first two
      separated by `@`, the last two by a literal `.`. */
  ghost predicate MatchesEmailPattern(s: string) {
    exists at, dot ::
      && 0 < at < dot - 1 && dot < |s| - 1 && s[at] == '@' && s[dot] == '.'
      && AllInAddressClass(s[..at]) && AllInAddressClass(s[at + 1..dot]) && AllInAddressClass(s[dot + 1..])
  }

  /** The index of the first `c` in `s`. */
  function IndexOf(s: string, c: char): (r: Option<nat>)
    ensures r.Some? ==> r.value < |s| && s[r.value] == c
    ensures r.Some? ==> forall j :: 0 <= j < r.value ==> s[j] != c
    ensures r.None? ==> forall j :: 0 <= j < |s| ==> s[j] != c
  {
    if |s| == 0 then None
    else if s[0] == c then Some(0)
    else match IndexOf(s[1..], c)
      case Some(k) => Some(k + 1)
      case None => None
  }

  /** `emailRegex.test(email)`, decided by splitting at the first `@`. */
  function EmailRegexTest(s: string): (ok: bool)
    ensures ok ==> forall i :: 0 <= i < |s| ==> !IsJsWhitespace(s[i])
    ensures ok ==> |s| > 0 && s[0] != '@'
  {
    match IndexOf(s, '@')
    case None => false
    case Some(at) =>
      var local, domain := s[..at], s[at + 1..];
      assert forall i :: 0 <= i < at ==> s[i] == local[i];
      assert forall i :: at < i < |s| ==> s[i] == domain[i - at - 1];
      && |local| > 0 && AllInAddressClass(local) && AllInAddressClass(domain)
      && (exists d :: 0 < d < |domain| - 1 && domain[d] == '.')
  }

  /** Every address the test accepts matches the pattern. */
  lemma AcceptedMatchesPattern(s: string)
    requires EmailRegexTest(s)
    ensures MatchesEmailPattern(s)
  {
    var at := IndexOf(s, '@').value;
    var domain := s[at + 1..];
    var d :| 0 < d < |domain| - 1 && domain[d] == '.';
    var dot := at + 1 + d;
    assert s[at + 1..dot] == domain[..d];
    assert s[dot + 1..] == domain[d + 1..];
    assert s[dot] == '.';
  }

  /** The first `c` is the one at `k` when none comes before it. */
  lemma {:induction false} IndexOfFirst(s: string, c: char, k: nat)
    requires k < |s| && s[k] == c
    requires forall j :: 0 <= j < k ==> s[j] != c
    ensures IndexOf(s, c) == Some(k)
  {
    if k > 0 {
      IndexOfFirst(s[1..], c, k - 1);
    }
  }

  /** Joining two runs of `[^\s@]` with a `.` gives a run of `[^\s@]`. */
  lemma DottedRunInClass(left: string, right: string)
    requires AllInAddressClass(left) && AllInAddressClass(right)
    ensures AllInAddressClass(left + ['.'] + right)
  {
    var joined := left + ['.'] + right;
    forall i | 0 <= i < |joined| ensures InAddressClass(joined[i]) {
      if i < |left| {
        assert joined[i] == left[i];
      } else if i > |left| {
        assert joined[i] == right[i - |left| - 1];
      }
    }
  }

  /** Every address the pattern matches is accepted by the test. */
  lemma PatternIsAccepted(s: string)
    requires MatchesEmailPattern(s)
    ensures EmailRegexTest(s)
  {
    var at, dot :| && 0 < at < dot - 1 && dot < |s| - 1 && s[at] == '@' && s[dot] == '.'
                   && AllInAddressClass(s[..at]) && AllInAddressClass(s[at + 1..dot])
                   && AllInAddressClass(s[dot + 1..]);
    var local, left, right := s[..at], s[at + 1..dot], s[dot + 1..];
    assert forall j :: 0 <= j < at ==> s[j] == local[j];
    IndexOfFirst(s, '@', at);
    SliceJoin(s, at + 1, dot, |s|);
    SliceJoin(s, dot, dot + 1, |s|);
    assert s[dot..dot + 1] == ['.'];
    var domain := s[at + 1..];
    assert domain == left + ['.'] + right;
    DottedRunInClass(left, right);
    assert domain[|left|] == '.';
  }

  /** The test accepts exactly the strings the pattern matches. */
  lemma EmailRegexTestIsPattern(s: string)
    ensures EmailRegexTest(s) <==> MatchesEmailPattern(s)
  {
    if EmailRegexTest(s) { AcceptedMatchesPattern(s); }
    if MatchesEmailPattern(s) { PatternIsAccepted(s); }
  }

  /** What an accepted address looks like: exactly one `@`, with something before it,
      and a `.` after it that is neither the first nor the last character there. */
  lemma AcceptedEmailShape(s: string) returns (at: nat)
    requires EmailRegexTest(s)
    ensures 0 < at < |s| && s[at] == '@'
    ensures forall i :: 0 <= i < |s| && i != at ==> s[i] != '@'
    ensures forall i :: 0 <= i < |s| ==> !IsJsWhitespace(s[i])
    ensures exists d :: at + 1 < d < |s| - 1 && s[d] == '.'
  {
    at := IndexOf(s, '@').value;
    var domain := s[at + 1..];
    assert forall i :: at < i < |s| ==> s[i] == domain[i - at - 1];
    var d :| 0 < d < |domain| - 1 && domain[d] == '.';
    assert s[at + 1 + d] == '.';
  }

  /** A call to a `useState` setter, in the order `handleSubmit` makes them. */
  datatype StateUpdate = ErrorSet(message: string) | LoadingSet(on: bool)

  /** The server's answer to `POST /auth/login`: `res.data.token`, or `err.response?.data?.msg`. */
  datatype LoginAnswer = LoggedIn(token: Option<string>) | LoginRejected(msg: Option<string>)

  const InvalidEmailError := "Please enter a valid email address"
  const InvalidCredentials := "Invalid credentials"

  /** `err.response?.data?.msg || 'Invalid credentials'`. */
  function LoginErrorText(msg: Option<string>): (e: string)
    ensures e != ""
    ensures msg.Some? && msg.value != "" ==> e == msg.value
    ensures !(msg.Some? && msg.value != "") ==> e == InvalidCredentials
  {
    if msg.Some? && msg.value != "" then msg.value else InvalidCredentials
  }

  /** What `localStorage.setItem` keeps: the token, or the string `"undefined"` if there is none. */
  function StoredToken(token: Option<string>): string {
    match token case Some(v) => v case None => "undefined"
  }

  /** The `Login` component's state: the inputs, `error`, `isLoading`, every setter call
      made, every login request sent, and the stored `token`. */
  class LoginForm {
    var email: string
    var password: string
    var error: string
    var isLoading: bool
    var updates: seq<StateUpdate>
    var requests: seq<(string, string)>
    var storedToken: Option<string>

    constructor ()
      ensures email == "" && password == "" && error == "" && !isLoading
      ensures updates == [] && requests == [] && storedToken.None?
    {
      email, password, error, isLoading := "", "", "", false;
      updates, requests, storedToken := [], [], None;
    }

    method SetError(message: string)
      modifies this`error, this`updates
      ensures error == message && updates == old(updates) + [ErrorSet(message)]
    {
      error := message;
      updates := updates + [ErrorSet(message)];
    }

    method SetIsLoading(on: bool)
      modifies this`isLoading, this`updates
      ensures isLoading == on && updates == old(updates) + [LoadingSet(on)]
    {
      isLoading := on;
      updates := updates + [LoadingSet(on)];
    }

    /** `handleSubmit`; `answer` is what the server would reply, used only if a request is sent. */
    method HandleSubmit(answer: LoginAnswer)
      modifies this`error, this`isLoading, this`updates, this`requests, this`storedToken
      ensures |updates| >= |old(updates)| + 2
      ensures updates[..|old(updates)| + 2] == old(updates) + [ErrorSet(""), LoadingSet(true)]
      ensures !EmailRegexTest(email) ==>
                && updates == old(updates) + [ErrorSet(""), LoadingSet(true), ErrorSet(InvalidEmailError), LoadingSet(false)]
                && error == InvalidEmailError && !isLoading
                && requests == old(requests) && storedToken == old(storedToken)
      ensures EmailRegexTest(email) ==>
                && requests == old(requests) + [(email, password)]
                && match answer
                   case LoggedIn(t) =>
                     && updates == old(updates) + [ErrorSet(""), LoadingSet(true)]
                     && error == "" && isLoading && storedToken == Some(StoredToken(t))
                   case LoginRejected(m) =>
                     && updates == old(updates) + [ErrorSet(""), LoadingSet(true), ErrorSet(LoginErrorText(m)), LoadingSet(false)]
                     && error == LoginErrorText(m) && !isLoading && storedToken == old(storedToken)
    {
      SetError("");
      SetIsLoading(true);
      if !EmailRegexTest(email) {
        SetError(InvalidEmailError);
        SetIsLoading(false);
        return;
      }
      requests := requests + [(email, password)];
      match answer {
        case LoggedIn(t) =>
          storedToken := Some(StoredToken(t));
        case LoginRejected(m) =>
          SetError(LoginErrorText(m));
          SetIsLoading(false);
      }
    }
  }
}
