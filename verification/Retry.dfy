/** internal/flasharray/client.go: the retry loop every request to the array goes through. */
module Retry {
  import opened Types

  const MAX_ATTEMPTS: nat := 4

  datatype Method = Get | Post | Patch | Delete

  /** What comes back: nothing, when the transport failed, or a status. missing: its body is the
      array's own error saying that the object does not exist. decodes: its body is what was asked for. */
  datatype Answer = Lost | Status(code: int, missing: bool, decodes: bool)

  datatype Sent = Sent(token: string, answer: Answer)

  datatype Result = Done | NotFound | Error

  /** All that happens in one request: what was sent, how often it logged in, the token it leaves
      behind, how it ended. */
  datatype Trace = Trace(sent: seq<Sent>, logins: nat, token: string, result: Result)

  /** The outside world, by attempt: the token another goroutine has left behind when it begins, the
      token a login brings, the token another goroutine leaves between that login and reading it back,
      the answer to the request, and whether the context ends before the next attempt. */
  datatype Env = Env(
    others: nat -> Option<string>, login: nat -> Option<string>, between: nat -> Option<string>,
    answer: nat -> Answer, ended: nat -> bool)

  /** What to do about an answer: stop, log in again, or wait and send again. */
  datatype Step = Stop(result: Result) | Reauth | Again

  predicate Retryable(m: Method, a: Answer) {
    match a
    case Lost => m != Post
    case Status(code, _, _) => code == 429 || (code >= 500 && m != Post)
  }

  /** Only the array's own 400 says that something does not exist. */
  function Judge(a: Answer): Result {
    match a
    case Lost => Error
    case Status(code, missing, decodes) =>
      if code == 400 && missing then NotFound
      else if 200 <= code <= 299 && decodes then Done
      else Error
  }

  function Next(m: Method, env: Env, attempt: nat, reauthed: bool, a: Answer): Step {
    if a.Status? && a.code == 401 && !reauthed then Reauth
    else if Retryable(m, a) && attempt < MAX_ATTEMPTS && !env.ended(attempt) then Again
    else Stop(Judge(a))
  }

  /** The token an attempt starts with. */
  function Seen(env: Env, token: string, attempt: nat): string {
    if env.others(attempt).Some? then env.others(attempt).value else token
  }

  /** A login that brings no token fails. */
  function LoggedIn(env: Env, attempt: nat): Option<string> {
    if env.login(attempt) == Some("") then None else env.login(attempt)
  }

  /** The token read back after a login. */
  function ReadBack(env: Env, attempt: nat): string
    requires LoggedIn(env, attempt).Some?
  {
    if env.between(attempt).Some? then env.between(attempt).value else LoggedIn(env, attempt).value
  }

  /** Between two attempts, with what went before; or the end. */
  datatype State =
    | Going(token: string, attempt: nat, reauthed: bool, sent: seq<Sent>, logins: nat)
    | Ended(trace: Trace)

  predicate Bounded(s: State) {
    s.Going? ==> 1 <= s.attempt <= MAX_ATTEMPTS + 1 && (s.attempt == MAX_ATTEMPTS + 1 ==> s.reauthed)
  }

  /** One attempt. */
  function Turn(m: Method, env: Env, s: State): (next: State)
    requires s.Going? && Bounded(s)
    ensures Bounded(next) && (next.Going? ==> next.attempt == s.attempt + 1)
  {
    var seen := Seen(env, s.token, s.attempt);
    if seen == "" && LoggedIn(env, s.attempt).None? then Ended(Trace(s.sent, s.logins, seen, Error))
    else
      var logins := if seen == "" then s.logins + 1 else s.logins;
      var tok := if seen == "" then ReadBack(env, s.attempt) else seen;
      var answer := env.answer(s.attempt);
      var sent := s.sent + [Sent(tok, answer)];
      match Next(m, env, s.attempt, s.reauthed, answer)
      case Stop(result) => Ended(Trace(sent, logins, tok, result))
      case Reauth => Going("", s.attempt + 1, true, sent, logins)
      case Again => Going(tok, s.attempt + 1, s.reauthed, sent, logins)
  }

  function Loop(m: Method, env: Env, s: State): Trace
    requires Bounded(s)
    decreases if s.Going? then MAX_ATTEMPTS + 2 - s.attempt else 0
  {
    if s.Ended? then s.trace else Loop(m, env, Turn(m, env, s))
  }

  function Request(m: Method, env: Env, token: string): Trace {
    Loop(m, env, Going(token, 1, false, [], 0))
  }

  predicate Denied(s: Sent) {
    s.answer.Status? && s.answer.code == 401
  }

  /** Each of these answers called for another request: one a 401, if any, the others retryable. */
  ghost predicate CalledForMore(m: Method, sent: seq<Sent>, denied: Option<nat>) {
    forall i | 0 <= i < |sent| :: if denied == Some(i) then Denied(sent[i]) else Retryable(m, sent[i].answer)
  }

  /** Every request but the last was answered by what allows another: a 401 once, a 429, or, unless
      it is a POST, a 5xx or no answer at all. There are at most MAX_ATTEMPTS of them and one more,
      that one only after a 401 to the MAX_ATTEMPTS-th. */
  ghost predicate Sparing(m: Method, t: Trace, denied: Option<nat>) {
    && (t.sent != [] ==> CalledForMore(m, t.sent[..|t.sent| - 1], denied))
    && |t.sent| <= MAX_ATTEMPTS + 1
    && (|t.sent| == MAX_ATTEMPTS + 1 ==> denied == Some(MAX_ATTEMPTS - 1))
  }

  /** Each answer is the array's to that attempt. A request goes out without a token only if another
      goroutine cleared it between the login and reading it back. */
  ghost predicate AsAnswered(env: Env, sent: seq<Sent>) {
    forall i | 0 <= i < |sent| ::
      sent[i].answer == env.answer(i + 1) && (sent[i].token == "" ==> env.between(i + 1) == Some(""))
  }

  /** The result is what the last answer says, given up on only after MAX_ATTEMPTS requests, a second
      401, or when the context ended; or else a login failed. */
  ghost predicate Truthful(m: Method, env: Env, t: Trace, denied: Option<nat>) {
    var n := |t.sent|;
    && AsAnswered(env, t.sent)
    && (|| (t.result == Error && LoggedIn(env, n + 1).None?)
        || (&& n > 0 && t.result == Judge(t.sent[n - 1].answer)
            && (Retryable(m, t.sent[n - 1].answer) ==> n >= MAX_ATTEMPTS || env.ended(n))
            && (Denied(t.sent[n - 1]) ==> denied.Some? && denied.value < n - 1)))
  }

  /** What has been gathered between two attempts, denied being the request answered by the 401 it
      logged in again for, if any; and at the end. */
  ghost predicate SoFar(m: Method, env: Env, s: State, denied: Option<nat>) {
    match s
    case Ended(t) => Sparing(m, t, denied) && Truthful(m, env, t, denied)
    case Going(_, attempt, reauthed, sent, _) =>
      && 1 <= attempt <= MAX_ATTEMPTS + 1 && |sent| == attempt - 1 && CalledForMore(m, sent, denied)
      && (attempt == MAX_ATTEMPTS + 1 ==> denied == Some(MAX_ATTEMPTS - 1))
      && reauthed == denied.Some? && (reauthed ==> denied.value < |sent|)
      && AsAnswered(env, sent)
  }

  function DeniedAfter(m: Method, env: Env, s: State, denied: Option<nat>): Option<nat>
    requires s.Going? && Bounded(s)
  {
    var next := Turn(m, env, s);
    if next.Going? && next.reauthed && !s.reauthed then Some(|s.sent|) else denied
  }

  lemma LastSent(m: Method, env: Env, attempt: nat, denied: Option<nat>, sent: seq<Sent>, s: Sent, t: Trace)
    requires 1 <= attempt <= MAX_ATTEMPTS + 1 && |sent| == attempt - 1 && CalledForMore(m, sent, denied)
    requires attempt == MAX_ATTEMPTS + 1 ==> denied == Some(MAX_ATTEMPTS - 1)
    requires denied.Some? ==> denied.value < |sent|
    requires AsAnswered(env, sent + [s])
    requires Next(m, env, attempt, denied.Some?, s.answer).Stop?
    requires t.sent == sent + [s] && t.result == Judge(s.answer)
    ensures Sparing(m, t, denied) && Truthful(m, env, t, denied)
  {
  }

  lemma LoginFailed(m: Method, env: Env, denied: Option<nat>, t: Trace)
    requires CalledForMore(m, t.sent, denied) && |t.sent| <= MAX_ATTEMPTS
    requires AsAnswered(env, t.sent)
    requires t.result == Error && LoggedIn(env, |t.sent| + 1).None?
    ensures Sparing(m, t, denied) && Truthful(m, env, t, denied)
  {
  }

  lemma TurnEnds(m: Method, env: Env, s: State, denied: Option<nat>)
    requires s.Going? && Bounded(s) && SoFar(m, env, s, denied) && Turn(m, env, s).Ended?
    ensures SoFar(m, env, Turn(m, env, s), denied)
  {
    var seen, t := Seen(env, s.token, s.attempt), Turn(m, env, s).trace;
    if seen == "" && LoggedIn(env, s.attempt).None? {
      LoginFailed(m, env, denied, t);
    } else {
      var tok := if seen == "" then ReadBack(env, s.attempt) else seen;
      LastSent(m, env, s.attempt, denied, s.sent, Sent(tok, env.answer(s.attempt)), t);
    }
  }

  lemma TurnGoesOn(m: Method, env: Env, s: State, denied: Option<nat>)
    requires s.Going? && Bounded(s) && SoFar(m, env, s, denied) && Turn(m, env, s).Going?
    ensures SoFar(m, env, Turn(m, env, s), DeniedAfter(m, env, s, denied))
  {
  }

  lemma {:induction false} LoopKeepsSoFar(m: Method, env: Env, s: State, already: Option<nat>) returns (denied: Option<nat>)
    requires Bounded(s) && SoFar(m, env, s, already)
    ensures SoFar(m, env, Ended(Loop(m, env, s)), denied)
    decreases if s.Going? then MAX_ATTEMPTS + 2 - s.attempt else 0
  {
    if s.Ended? {
      return already;
    }
    if Turn(m, env, s).Ended? {
      TurnEnds(m, env, s, already);
      return already;
    }
    TurnGoesOn(m, env, s, already);
    denied := LoopKeepsSoFar(m, env, Turn(m, env, s), DeniedAfter(m, env, s, already));
  }

  /** However the array, the network and other goroutines behave. */
  lemma RequestIsSparing(m: Method, env: Env, token: string) returns (denied: Option<nat>)
    ensures Sparing(m, Request(m, env, token), denied) && Truthful(m, env, Request(m, env, token), denied)
  {
    denied := LoopKeepsSoFar(m, env, Going(token, 1, false, [], 0), None);
  }

  /** An answer that may call for another request: none, a refused token, too many requests, or a server
      error. */
  predicate Unsettled(a: Answer) {
    a.Lost? || a.code == 401 || a.code == 429 || a.code >= 500
  }

  /** The request is done exactly if the last answer is a success with what was asked for, and its object
      does not exist exactly if that is a 400 with the array's own word for it; anything else, a 404
      included, is an error. */
  predicate ResultFits(t: Trace) {
    && (t.result == Done <==>
          t.sent != [] && var a := t.sent[|t.sent| - 1].answer; a.Status? && 200 <= a.code <= 299 && a.decodes)
    && (t.result == NotFound <==>
          t.sent != [] && var a := t.sent[|t.sent| - 1].answer; a.Status? && a.code == 400 && a.missing)
  }

  lemma {:induction false} LoopEndsFit(m: Method, env: Env, s: State)
    requires Bounded(s)
    requires if s.Ended? then ResultFits(s.trace) else s.sent != [] ==> Unsettled(s.sent[|s.sent| - 1].answer)
    ensures ResultFits(Loop(m, env, s))
    decreases if s.Going? then MAX_ATTEMPTS + 2 - s.attempt else 0
  {
    if s.Going? {
      LoopEndsFit(m, env, Turn(m, env, s));
    }
  }

  lemma ResultSays(m: Method, env: Env, token: string)
    ensures ResultFits(Request(m, env, token))
  {
    LoopEndsFit(m, env, Going(token, 1, false, [], 0));
  }

  /** What is sent again: a 429 always; a 5xx or no answer unless it is a POST. */
  lemma RetryableIff(m: Method, a: Answer)
    ensures Retryable(m, a) <==> (a.Status? && a.code == 429) || (m != Post && (a.Lost? || a.code >= 500))
  {
  }

  /** There is no token for the i-th request, counting from zero: another goroutine has just cleared it, or
      left what was there, and that is none, or one that was refused with a 401. */
  ghost predicate Missing(env: Env, token: string, sent: seq<Sent>, i: nat)
    requires i <= |sent|
  {
    if env.others(i + 1).Some? then env.others(i + 1).value == ""
    else if i == 0 then token == ""
    else Denied(sent[i - 1]) || sent[i - 1].token == ""
  }

  /** It went out with the token that was there, or, if there was none, with what another goroutine left
      after the login, or with what the login brought. */
  ghost predicate Carried(env: Env, token: string, sent: seq<Sent>, i: nat)
    requires i < |sent|
  {
    var tok := sent[i].token;
    if Missing(env, token, sent, i) then
      && env.login(i + 1).Some? && env.login(i + 1).value != ""
      && if env.between(i + 1).Some? then env.between(i + 1) == Some(tok) else env.login(i + 1) == Some(tok)
    else
      if env.others(i + 1).Some? then env.others(i + 1) == Some(tok)
      else tok == if i == 0 then token else sent[i - 1].token
  }

  /** Every request went out with the token it should, and each missing one took one login. */
  ghost predicate TokensFit(env: Env, token: string, sent: seq<Sent>, logins: nat) {
    if sent == [] then logins == 0
    else
      var n := |sent| - 1;
      var login := if Missing(env, token, sent, n) then 1 else 0;
      Carried(env, token, sent, n) && login <= logins && TokensFit(env, token, sent[..n], logins - login)
  }

  /** Then the last token sent stays, or none, when the login for another request failed. */
  ghost predicate TokenLeft(env: Env, token: string, t: Trace) {
    || (t.sent != [] && t.token == t.sent[|t.sent| - 1].token)
    || (t.token == "" && t.result == Error && Missing(env, token, t.sent, |t.sent|))
  }

  lemma OneMoreSent(env: Env, token: string, sent: seq<Sent>, logins: nat, next: Sent)
    requires TokensFit(env, token, sent, logins) && Carried(env, token, sent + [next], |sent|)
    ensures TokensFit(env, token, sent + [next], logins + if Missing(env, token, sent, |sent|) then 1 else 0)
  {
    var more := sent + [next];
    assert more[..|more| - 1] == sent;
  }

  ghost predicate TokensSoFar(env: Env, token: string, s: State) {
    match s
    case Ended(t) => TokensFit(env, token, t.sent, t.logins) && TokenLeft(env, token, t)
    case Going(tok, attempt, _, sent, logins) =>
      && |sent| == attempt - 1 && TokensFit(env, token, sent, logins)
      && tok == if sent == [] then token else if Denied(sent[|sent| - 1]) then "" else sent[|sent| - 1].token
  }

  lemma TokenCarried(env: Env, token: string, s: State, last: Sent)
    requires s.Going? && TokensSoFar(env, token, s) && s.attempt >= 1
    requires var seen := Seen(env, s.token, s.attempt);
             if seen == "" then LoggedIn(env, s.attempt).Some? && last.token == ReadBack(env, s.attempt)
             else last.token == seen
    ensures Carried(env, token, s.sent + [last], |s.sent|)
    ensures Missing(env, token, s.sent, |s.sent|) == (Seen(env, s.token, s.attempt) == "")
  {
  }

  lemma TokensAfter(env: Env, token: string, s: State, last: Sent, next: State)
    requires s.Going? && TokensSoFar(env, token, s) && Carried(env, token, s.sent + [last], |s.sent|)
    requires var logins := s.logins + if Missing(env, token, s.sent, |s.sent|) then 1 else 0;
             match next
             case Ended(t) => t.sent == s.sent + [last] && t.token == last.token && t.logins == logins
             case Going(tok, attempt, _, sent, n) =>
               && attempt == s.attempt + 1 && sent == s.sent + [last] && n == logins
               && tok == if Denied(last) then "" else last.token
    ensures TokensSoFar(env, token, next)
  {
    OneMoreSent(env, token, s.sent, s.logins, last);
  }

  lemma TurnKeepsTokens(m: Method, env: Env, token: string, s: State)
    requires s.Going? && Bounded(s) && TokensSoFar(env, token, s)
    ensures TokensSoFar(env, token, Turn(m, env, s))
  {
    var next := Turn(m, env, s);
    var sent := if next.Going? then next.sent else next.trace.sent;
    if |sent| > |s.sent| {
      TokenCarried(env, token, s, sent[|s.sent|]);
      TokensAfter(env, token, s, sent[|s.sent|], next);
    }
  }

  lemma {:induction false} LoopKeepsTokens(m: Method, env: Env, token: string, s: State)
    requires Bounded(s) && TokensSoFar(env, token, s)
    ensures TokensSoFar(env, token, Ended(Loop(m, env, s)))
    decreases if s.Going? then MAX_ATTEMPTS + 2 - s.attempt else 0
  {
    if s.Going? {
      TurnKeepsTokens(m, env, token, s);
      LoopKeepsTokens(m, env, token, Turn(m, env, s));
    }
  }

  lemma TokensSay(m: Method, env: Env, token: string)
    ensures var t := Request(m, env, token); TokensFit(env, token, t.sent, t.logins) && TokenLeft(env, token, t)
  {
    LoopKeepsTokens(m, env, token, Going(token, 1, false, [], 0));
  }

  /** How often the array has carried the request out. */
  function Applied(sent: seq<Sent>, did: Answer -> bool): nat {
    if sent == [] then 0 else Applied(sent[..|sent| - 1], did) + if did(sent[|sent| - 1].answer) then 1 else 0
  }

  lemma {:induction false} NoneApplied(sent: seq<Sent>, did: Answer -> bool)
    requires forall i | 0 <= i < |sent| :: !did(sent[i].answer)
    ensures Applied(sent, did) == 0
  {
    if sent != [] {
      NoneApplied(sent[..|sent| - 1], did);
    }
  }

  /** An array that carries out nothing it answers with 401 or 429 applies a POST at most once. */
  lemma PostAppliedAtMostOnce(env: Env, token: string, did: Answer -> bool)
    requires forall a: Answer :: a.Status? && (a.code == 401 || a.code == 429) ==> !did(a)
    ensures Applied(Request(Post, env, token).sent, did) <= 1
  {
    var denied := RequestIsSparing(Post, env, token);
    var sent := Request(Post, env, token).sent;
    if sent != [] {
      var before := sent[..|sent| - 1];
      forall i | 0 <= i < |before| ensures !did(before[i].answer) {
        assert Denied(before[i]) || Retryable(Post, before[i].answer);
      }
      NoneApplied(before, did);
    }
  }

  /** Not so for any other method: one lost answer, and it is applied again. */
  lemma OthersMayBeAppliedTwice(m: Method)
    requires m != Post
    ensures var env := Env(n => None, n => None, n => None, n => if n == 1 then Lost else Status(200, false, true), n => false);
            Applied(Request(m, env, "t").sent, (a: Answer) => a.Lost? || a.code == 200) == 2
  {
    var env := Env(n => None, n => None, n => None, n => if n == 1 then Lost else Status(200, false, true), n => false);
    var s1 := [Sent("t", Lost)];
    var s2 := s1 + [Sent("t", Status(200, false, true))];
    assert Loop(m, env, Going("t", 2, false, s1, 0)).sent == s2;
    assert Request(m, env, "t").sent == s2;
    assert s2[..1] == s1 && s1[..0] == [];
  }

  /** Busy three times, then the session has expired, then it works. */
  function Worst(): Env {
    Env(n => None, n => Some("u"), n => None,
        n => if n < 4 then Status(429, false, false)
             else if n == 4 then Status(401, false, false)
             else Status(200, false, true),
        n => false)
  }

  /** The bound of one request beyond MAX_ATTEMPTS is reached. */
  lemma FiveRequests(m: Method)
    ensures |Request(m, Worst(), "t").sent| == MAX_ATTEMPTS + 1 && Request(m, Worst(), "t").result == Done
  {
    var env := Worst();
    var g1 := Going("t", 1, false, [], 0);
    var g2 := Turn(m, env, g1);
    var g3 := Turn(m, env, g2);
    var g4 := Turn(m, env, g3);
    var g5 := Turn(m, env, g4);
    var end := Turn(m, env, g5);
    assert g5.reauthed && |g5.sent| == 4 && end.Ended? && |end.trace.sent| == 5 && end.trace.result == Done;
    assert Loop(m, env, g5) == end.trace;
    assert Loop(m, env, g3) == Loop(m, env, g5);
    assert Loop(m, env, g1) == Loop(m, env, g3);
  }

  /** It does happen: another request's 401 clears the token just after this one has logged in, and
      this one is sent without. */
  lemma SentWithoutToken(m: Method, answer: Answer)
    ensures var env := Env(n => None, n => Some("t"), n => Some(""), n => answer, n => true);
            Request(m, env, "").sent != [] && Request(m, env, "").sent[0] == Sent("", answer)
  {
    var env := Env(n => None, n => Some("t"), n => Some(""), n => answer, n => true);
    var next := Turn(m, env, Going("", 1, false, [], 0));
    if next.Going? {
      SentStays(m, env, next);
    }
  }

  lemma {:induction false} SentStays(m: Method, env: Env, s: State)
    requires s.Going? && Bounded(s)
    ensures s.sent <= Loop(m, env, s).sent
    decreases MAX_ATTEMPTS + 2 - s.attempt
  {
    var next := Turn(m, env, s);
    if next.Going? {
      SentStays(m, env, next);
    }
  }

  /** Unless others clear the token it logs in at most twice: without a token at first, and after
      its one 401. */
  lemma {:induction false} LoginsAreFew(m: Method, env: Env, s: State)
    requires s.Going? && Bounded(s) && forall n :: env.others(n) != Some("") && env.between(n) != Some("")
    ensures Loop(m, env, s).logins <= s.logins + (if s.token == "" then 1 else 0) + if s.reauthed then 0 else 1
    decreases MAX_ATTEMPTS + 2 - s.attempt
  {
    var next := Turn(m, env, s);
    if next.Going? {
      LoginsAreFew(m, env, next);
    }
  }

  class Client {
    var authToken: string

    constructor ()
      ensures authToken == ""
    {
      authToken := "";
    }

    method Login(env: Env, attempt: nat) returns (ok: bool)
      modifies this
      ensures ok == LoggedIn(env, attempt).Some?
      ensures authToken == if ok then LoggedIn(env, attempt).value else old(authToken)
    {
      var t := env.login(attempt);
      if t.None? || t.value == "" {
        return false;
      }
      authToken := t.value;
      return true;
    }

    /** The start of an attempt: others may have changed the token; without one it logs in, and reads
        back what is there then. */
    method Authorize(env: Env, attempt: nat) returns (tok: string, again: bool, ok: bool)
      modifies this
      ensures again == (Seen(env, old(authToken), attempt) == "")
      ensures ok == (!again || LoggedIn(env, attempt).Some?) && authToken == tok
      ensures tok == if again && ok then ReadBack(env, attempt) else Seen(env, old(authToken), attempt)
    {
      if env.others(attempt).Some? {
        authToken := env.others(attempt).value;
      }
      again, ok := authToken == "", true;
      if again {
        ok := Login(env, attempt);
        if ok && env.between(attempt).Some? {
          authToken := env.between(attempt).value;
        }
      }
      tok := authToken;
    }

    method Conclude(answer: Answer) returns (result: Result)
      requires answer.Status?
      ensures result == Judge(answer)
    {
      if answer.code == 400 || answer.code == 404 {
        return if answer.missing && answer.code == 400 then NotFound else Error;
      }
      if answer.code < 200 || answer.code > 299 || !answer.decodes {
        return Error;
      }
      return Done;
    }

    /** One attempt of Client.do; r is what it returns, if it does. */
    method Attempt(m: Method, env: Env, attempt: nat, reauthed: bool, sent: seq<Sent>, logins: nat)
      returns (state: State)
      requires Bounded(Going(authToken, attempt, reauthed, sent, logins))
      modifies this
      ensures state == Turn(m, env, Going(old(authToken), attempt, reauthed, sent, logins))
      ensures authToken == if state.Going? then state.token else state.trace.token
    {
      var tok, again, ok := Authorize(env, attempt);
      if !ok {
        return Ended(Trace(sent, logins, tok, Error));
      }
      var logins' := if again then logins + 1 else logins;
      var answer := env.answer(attempt);
      var sent' := sent + [Sent(tok, answer)];
      if answer.Lost? {
        if m == Post || attempt >= MAX_ATTEMPTS || env.ended(attempt) {
          return Ended(Trace(sent', logins', tok, Error));
        }
        return Going(tok, attempt + 1, reauthed, sent', logins');
      }
      if answer.code == 401 && !reauthed {
        authToken := "";
        return Going("", attempt + 1, true, sent', logins');
      }
      var retryable := answer.code == 429 || (answer.code >= 500 && m != Post);
      if retryable && attempt < MAX_ATTEMPTS && !env.ended(attempt) {
        return Going(tok, attempt + 1, reauthed, sent', logins');
      }
      var result := Conclude(answer);
      return Ended(Trace(sent', logins', tok, result));
    }

    /** Client.do. */
    method Do(m: Method, env: Env) returns (trace: Trace)
      modifies this
      ensures trace == Request(m, env, old(authToken)) && authToken == trace.token
    {
      var state := Going(authToken, 1, false, [], 0);
      while state.Going?
        invariant Bounded(state) && Loop(m, env, state) == Request(m, env, old(authToken))
        invariant authToken == if state.Going? then state.token else state.trace.token
        decreases if state.Going? then MAX_ATTEMPTS + 2 - state.attempt else 0
      {
        state := Attempt(m, env, state.attempt, state.reauthed, state.sent, state.logins);
      }
      return state.trace;
    }
  }
}
