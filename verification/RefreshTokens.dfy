/**
 Refresh-token rotation over Redis. A request is a chain of atomic steps (mint, SET, GETDEL, DEL), and any number of
 requests interleave between them. Times are in seconds.
 */
module RefreshTokens {
  import opened Wrappers

  /** REFRESH_TOKEN_EXPIRE_DAYS, as a JWT lifetime and as a Redis TTL. */
  const LIFETIME := 30 * 24 * 60 * 60

  /** The claims of a refresh token; the signature makes the text unforgeable. */
  datatype Token = Token(sub: string, jti: nat, exp: nat)

  datatype Entry = Entry(user: string, expiresAt: nat)

  /** Where a request stands: about to store a token, about to consume one, or about to mint in exchange for one. */
  datatype Request = Minted(token: Token, user: string) | Presented(token: Token) | Exchanged(user: string) | Over(ok: bool)

  /** `logins`, `minted`, `stored` and the three multisets of tokens are history. */
  datatype State = State(
    now: nat, live: map<Token, Entry>, requests: map<nat, Request>,
    logins: multiset<string>, minted: set<Token>, stored: set<Token>,
    exchanged: multiset<Token>, loggedOut: multiset<Token>, expired: multiset<Token>)

  const INIT := State(0, map[], map[], multiset{}, {}, {}, multiset{}, multiset{}, multiset{})

  datatype Step =
    | Login(r: nat, user: string, jti: nat)
    | Store(r: nat)
    | Present(r: nat, token: Token)
    | Consume(r: nat)
    | Rotate(r: nat, jti: nat)
    | Logout(token: Token)
    | Tick(seconds: nat)

  /** A jti is never used twice (section 4.1.7 of RFC 7519). */
  predicate FreshId(s: State, jti: nat) {
    forall t | t in s.minted :: t.jti != jti
  }

  predicate Enabled(s: State, step: Step) {
    match step
    case Login(r, _, jti) => r !in s.requests && FreshId(s, jti)
    case Store(r) => r in s.requests && s.requests[r].Minted?
    case Present(r, _) => r !in s.requests
    case Consume(r) => r in s.requests && s.requests[r].Presented?
    case Rotate(r, jti) => r in s.requests && s.requests[r].Exchanged? && FreshId(s, jti)
    case Logout(_) => true
    case Tick(_) => true
  }

  function With(s: State, r: nat, request: Request): State {
    s.(requests := s.requests[r := request])
  }

  function Mint(s: State, r: nat, user: string, jti: nat): State {
    var token := Token(user, jti, s.now + LIFETIME);
    With(s, r, Minted(token, user)).(minted := s.minted + {token})
  }

  function GetDel(s: State, r: nat, token: Token): State {
    if token !in s.live then With(s, r, Over(false))
    else
      var taken := s.(live := s.live - {token}, exchanged := s.exchanged + multiset{token});
      var user := s.live[token].user;
      if user == "" || user != token.sub then With(taken, r, Over(false)) else With(taken, r, Exchanged(user))
  }

  function Lapsed(live: map<Token, Entry>, now: nat): set<Token> {
    set t | t in live && live[t].expiresAt <= now
  }

  function Next(s: State, step: Step): State
    requires Enabled(s, step)
  {
    match step
    case Login(r, user, jti) => Mint(s, r, user, jti).(logins := s.logins + multiset{user})
    case Store(r) =>
      var q := s.requests[r];
      With(s, r, Over(true)).(live := s.live[q.token := Entry(q.user, s.now + LIFETIME)],
                              stored := s.stored + {q.token})
    case Present(r, token) =>
      if token in s.minted && s.now < token.exp && token.sub != "" then With(s, r, Presented(token))
      else With(s, r, Over(false))
    case Consume(r) => GetDel(s, r, s.requests[r].token)
    case Rotate(r, jti) => Mint(s, r, s.requests[r].user, jti)
    case Logout(token) =>
      if token in s.live then s.(live := s.live - {token}, loggedOut := s.loggedOut + multiset{token}) else s
    case Tick(d) =>
      var gone := Lapsed(s.live, s.now + d);
      s.(now := s.now + d, live := s.live - gone, expired := s.expired + multiset(gone))
  }

  function Exec(s: State, steps: seq<Step>): Option<State>
    decreases |steps|
  {
    if steps == [] then Some(s)
    else if Enabled(s, steps[0]) then Exec(Next(s, steps[0]), steps[1..])
    else None
  }

  // ---- what every step keeps ----

  /** Each token that was ever stored is in exactly one place: live, exchanged, logged out or expired. */
  ghost predicate Conserved(s: State) {
    multiset(s.stored) == multiset(s.live.Keys) + s.exchanged + s.loggedOut + s.expired
  }

  ghost predicate Pending(s: State, r: nat) {
    r in s.requests && s.requests[r].Minted?
  }

  /** A token about to be stored has not been stored, and no other request is about to store it. */
  ghost predicate OneStorer(s: State) {
    && s.stored <= s.minted
    && (forall r | Pending(s, r) :: s.requests[r].token in s.minted && s.requests[r].token !in s.stored)
    && (forall r, q | Pending(s, r) && Pending(s, q) && r != q :: s.requests[r].token != s.requests[q].token)
  }

  ghost predicate SubjectsMatch(s: State) {
    && (forall t | t in s.live :: s.live[t].user == t.sub)
    && (forall r | Pending(s, r) :: s.requests[r].user == s.requests[r].token.sub)
    && (forall r | r in s.requests && s.requests[r].Presented? :: s.requests[r].token.sub != "")
  }

  /** The requests that have taken a token and not yet minted the next. */
  ghost function Owed(s: State): set<nat> {
    set r | r in s.requests && s.requests[r].Exchanged?
  }

  /** Every token was minted for a login or in exchange for another. */
  ghost predicate Accounted(s: State) {
    |s.minted| + |Owed(s)| <= |s.logins| + |s.exchanged|
  }

  ghost function MintedFor(s: State, user: string): set<Token> {
    set t | t in s.minted && t.sub == user
  }

  ghost function ExchangedBy(s: State, user: string): set<Token> {
    set t | t in s.exchanged && t.sub == user
  }

  ghost function OwedTo(s: State, user: string): set<nat> {
    set r | r in s.requests && s.requests[r] == Exchanged(user)
  }

  /** Each token of a user was minted for a login of that user or in exchange for another token of that user. */
  ghost predicate UserAccounted(s: State, user: string) {
    && |MintedFor(s, user)| + |OwedTo(s, user)| <= s.logins[user] + |ExchangedBy(s, user)|
    && (user !in s.logins ==> MintedFor(s, user) == {} && OwedTo(s, user) == {})
  }

  /** An entry outlives the token's own expiry, and no token is dropped before that. */
  ghost predicate InTime(s: State) {
    && (forall r | Pending(s, r) :: s.requests[r].token.exp <= s.now + LIFETIME)
    && (forall t | t in s.live :: t.exp <= s.live[t].expiresAt <= s.now + LIFETIME && s.now < s.live[t].expiresAt)
    && (forall t | t in s.expired :: t.exp <= s.now)
  }

  ghost predicate Inv(s: State) {
    Conserved(s) && OneStorer(s) && SubjectsMatch(s) && Accounted(s) && InTime(s) && forall u :: UserAccounted(s, u)
  }

  lemma SplitKeys(live: map<Token, Entry>, gone: set<Token>)
    requires gone <= live.Keys
    ensures multiset(live.Keys) == multiset((live - gone).Keys) + multiset(gone)
  {
    assert live.Keys == (live - gone).Keys + gone && (live - gone).Keys !! gone;
  }

  lemma StoreConserves(s: State, r: nat)
    requires Conserved(s) && OneStorer(s) && s.live.Keys <= s.stored && Enabled(s, Store(r))
    ensures Conserved(Next(s, Store(r)))
  {
    var token := s.requests[r].token;
    assert Pending(s, r);
    assert multiset(s.stored + {token}) == multiset(s.stored) + multiset{token};
    assert Next(s, Store(r)).live.Keys == s.live.Keys + {token};
    assert multiset(s.live.Keys + {token}) == multiset(s.live.Keys) + multiset{token};
  }

  lemma StepConserves(s: State, step: Step)
    requires Conserved(s) && OneStorer(s) && s.live.Keys <= s.stored && Enabled(s, step)
    ensures Conserved(Next(s, step))
  {
    hide FreshId, OneStorer;
    match step
    case Store(r) => StoreConserves(s, r);
    case Consume(r) =>
      var token := s.requests[r].token;
      if token in s.live { SplitKeys(s.live, {token}); assert multiset({token}) == multiset{token}; }
    case Logout(token) =>
      if token in s.live { SplitKeys(s.live, {token}); assert multiset({token}) == multiset{token}; }
    case Tick(d) =>
      SplitKeys(s.live, Lapsed(s.live, s.now + d));
    case Login(_, _, _) =>
    case Present(_, _) =>
    case Rotate(_, _) =>
  }

  lemma LiveIsStored(s: State)
    requires Conserved(s)
    ensures s.live.Keys <= s.stored
  {
    forall t | t in s.live.Keys ensures t in s.stored {
      assert multiset(s.live.Keys)[t] == 1;
      assert multiset(s.stored)[t] >= 1;
    }
  }

  lemma StepStores(s: State, step: Step)
    requires OneStorer(s) && Enabled(s, step)
    ensures OneStorer(Next(s, step))
  {
    hide Lapsed, FreshId, OneStorer;
    match step
    case Login(r, user, jti) =>
      MintStores(s, r, user, jti);
      FewerPending(Mint(s, r, user, jti), Next(s, step));
    case Rotate(r, jti) => MintStores(s, r, s.requests[r].user, jti);
    case Store(r) => StoreStores(s, r);
    case Present(_, _) => FewerPending(s, Next(s, step));
    case Consume(_) => FewerPending(s, Next(s, step));
    case Logout(_) => FewerPending(s, Next(s, step));
    case Tick(_) => FewerPending(s, Next(s, step));
  }

  lemma FewerPending(s: State, t: State)
    requires OneStorer(s) && t.stored == s.stored && t.minted == s.minted
    requires forall r | Pending(t, r) :: Pending(s, r) && t.requests[r].token == s.requests[r].token
    ensures OneStorer(t)
  {
  }

  lemma StoreStores(s: State, r: nat)
    requires OneStorer(s) && Pending(s, r)
    ensures OneStorer(Next(s, Store(r)))
  {
    var t := Next(s, Store(r));
    assert forall q | Pending(t, q) :: q != r && Pending(s, q) && t.requests[q] == s.requests[q];
  }

  lemma MintStores(s: State, r: nat, user: string, jti: nat)
    requires OneStorer(s) && FreshId(s, jti) && !Pending(s, r)
    ensures OneStorer(Mint(s, r, user, jti))
  {
  }

  lemma StepMatches(s: State, step: Step)
    requires SubjectsMatch(s) && Enabled(s, step)
    ensures SubjectsMatch(Next(s, step))
  {
    hide FreshId, Lapsed;
  }

  lemma FreshIsNew(s: State, token: Token)
    requires FreshId(s, token.jti)
    ensures |s.minted + {token}| == |s.minted| + 1
  {
  }

  lemma MintAccounts(s: State, r: nat, user: string, jti: nat)
    requires FreshId(s, jti)
    ensures var t := Mint(s, r, user, jti); |t.minted| == |s.minted| + 1 && Owed(t) == Owed(s) - {r}
  {
    FreshIsNew(s, Token(user, jti, s.now + LIFETIME));
  }

  lemma ConsumeAccounts(s: State, r: nat, token: Token)
    requires SubjectsMatch(s) && r in s.requests && s.requests[r] == Presented(token)
    ensures var t := GetDel(s, r, token);
            && t.minted == s.minted && t.logins == s.logins
            && (if token in s.live then |t.exchanged| == |s.exchanged| + 1 && Owed(t) == Owed(s) + {r}
                else t.exchanged == s.exchanged && Owed(t) == Owed(s))
  {
    assert |s.exchanged + multiset{token}| == |s.exchanged| + 1;
  }

  lemma OthersAccount(s: State, step: Step)
    requires Enabled(s, step) && (step.Store? || step.Present? || step.Logout? || step.Tick?)
    ensures var t := Next(s, step);
            Owed(t) == Owed(s) && t.minted == s.minted && t.logins == s.logins && t.exchanged == s.exchanged
  {
    hide Lapsed, FreshId;
    assert Owed(Next(s, step)) == Owed(s);
  }

  lemma StepAccounts(s: State, step: Step)
    requires Accounted(s) && SubjectsMatch(s) && Enabled(s, step)
    ensures Accounted(Next(s, step))
  {
    hide Lapsed, FreshId, SubjectsMatch, Mint, GetDel;
    match step
    case Login(r, user, jti) =>
      MintAccounts(s, r, user, jti);
      MintSame(s, r, user, jti);
      assert Owed(Next(s, step)) == Owed(Mint(s, r, user, jti));
    case Rotate(r, jti) =>
      assert r in Owed(s);
      MintAccounts(s, r, s.requests[r].user, jti);
      MintSame(s, r, s.requests[r].user, jti);
    case Consume(r) =>
      ConsumeAccounts(s, r, s.requests[r].token);
    case Store(_) => OthersAccount(s, step);
    case Present(_, _) => OthersAccount(s, step);
    case Logout(_) => OthersAccount(s, step);
    case Tick(_) => OthersAccount(s, step);
  }

  lemma MintSame(s: State, r: nat, user: string, jti: nat)
    ensures Mint(s, r, user, jti).exchanged == s.exchanged && Mint(s, r, user, jti).logins == s.logins
  {
  }

  lemma NextKeeps(s: State, step: Step)
    requires Inv(s) && Enabled(s, step)
    ensures Inv(Next(s, step))
  {
    LiveIsStored(s);
    forall t | t in s.live ensures s.exchanged[t] == 0 { LiveOnce(s, t); }
    hide Enabled, Next, Conserved, OneStorer, SubjectsMatch, Accounted, InTime, UserAccounted;
    StepConserves(s, step);
    StepStores(s, step);
    StepMatches(s, step);
    StepAccounts(s, step);
    StepInTime(s, step);
    forall u ensures UserAccounted(Next(s, step), u) { StepUserAccounts(s, step, u); }
  }

  lemma LiveOnce(s: State, t: Token)
    requires Conserved(s) && t in s.live
    ensures s.exchanged[t] == 0 && t in s.stored
  {
    assert multiset(s.stored)[t] == multiset(s.live.Keys)[t] + s.exchanged[t] + s.loggedOut[t] + s.expired[t];
  }

  lemma StepInTime(s: State, step: Step)
    requires InTime(s) && Enabled(s, step)
    ensures InTime(Next(s, step))
  {
    hide FreshId, Lapsed, InTime, Mint, GetDel;
    match step
    case Tick(d) => TickInTime(s, d);
    case Login(r, user, jti) =>
      MintInTime(s, r, user, jti);
      SameInTime(Mint(s, r, user, jti), Next(s, step));
    case Rotate(r, jti) => MintInTime(s, r, s.requests[r].user, jti);
    case Store(r) => StoreInTime(s, r);
    case Consume(r) => ConsumeInTime(s, r, s.requests[r].token);
    case Present(r, _) => SameInTime(s, Next(s, step));
    case Logout(_) => SameInTime(s, Next(s, step));
  }

  lemma SameInTime(s: State, t: State)
    requires InTime(s) && t.now == s.now && t.expired == s.expired
    requires t.live.Keys <= s.live.Keys && forall x | x in t.live :: t.live[x] == s.live[x]
    requires forall r | Pending(t, r) :: Pending(s, r) && t.requests[r].token == s.requests[r].token
    ensures InTime(t)
  {
  }

  lemma StoreInTime(s: State, r: nat)
    requires InTime(s) && Pending(s, r)
    ensures InTime(Next(s, Store(r)))
  {
  }

  lemma ConsumeInTime(s: State, r: nat, token: Token)
    requires InTime(s)
    ensures InTime(GetDel(s, r, token))
  {
  }

  lemma MintInTime(s: State, r: nat, user: string, jti: nat)
    requires InTime(s)
    ensures InTime(Mint(s, r, user, jti))
  {
  }

  lemma TickInTime(s: State, seconds: nat)
    requires InTime(s)
    ensures InTime(Next(s, Tick(seconds)))
  {
  }

  lemma MintUser(s: State, r: nat, user: string, jti: nat, u: string)
    requires FreshId(s, jti)
    ensures var t := Mint(s, r, user, jti);
            && |MintedFor(t, u)| == |MintedFor(s, u)| + (if u == user then 1 else 0)
            && (u != user ==> MintedFor(t, u) == MintedFor(s, u))
            && OwedTo(t, u) == OwedTo(s, u) - {r} && ExchangedBy(t, u) == ExchangedBy(s, u)
  {
    MintOwed(s, r, user, jti, u);
    MintMinted(s, r, user, jti, u);
    hide OwedTo, FreshId, MintedFor;
  }

  lemma MintMinted(s: State, r: nat, user: string, jti: nat, u: string)
    requires FreshId(s, jti)
    ensures |MintedFor(Mint(s, r, user, jti), u)| == |MintedFor(s, u)| + (if u == user then 1 else 0)
    ensures u != user ==> MintedFor(Mint(s, r, user, jti), u) == MintedFor(s, u)
  {
    var token := Token(user, jti, s.now + LIFETIME);
    assert token !in MintedFor(s, u);
    assert MintedFor(Mint(s, r, user, jti), u) == MintedFor(s, u) + if u == user then {token} else {};
  }

  lemma MintOwed(s: State, r: nat, user: string, jti: nat, u: string)
    ensures OwedTo(Mint(s, r, user, jti), u) == OwedTo(s, u) - {r}
  {
  }

  lemma ConsumeOwed(s: State, r: nat, token: Token, u: string)
    requires SubjectsMatch(s) && r in s.requests && s.requests[r] == Presented(token)
    ensures OwedTo(GetDel(s, r, token), u) == OwedTo(s, u) + (if token in s.live && token.sub == u then {r} else {})
    ensures r !in OwedTo(s, u)
  {
  }

  lemma ConsumeExchanged(s: State, r: nat, token: Token, u: string)
    ensures ExchangedBy(GetDel(s, r, token), u)
            == ExchangedBy(s, u) + (if token in s.live && token.sub == u then {token} else {})
    ensures MintedFor(GetDel(s, r, token), u) == MintedFor(s, u) && GetDel(s, r, token).logins == s.logins
  {
  }

  lemma ConsumeUser(s: State, r: nat, token: Token, u: string)
    requires SubjectsMatch(s) && s.live.Keys <= s.minted && r in s.requests && s.requests[r] == Presented(token)
    requires token in s.live ==> s.exchanged[token] == 0
    ensures var t, own := GetDel(s, r, token), if token in s.live && token.sub == u then 1 else 0;
            && MintedFor(t, u) == MintedFor(s, u) && t.logins == s.logins
            && |ExchangedBy(t, u)| == |ExchangedBy(s, u)| + own && |OwedTo(t, u)| == |OwedTo(s, u)| + own
            && (own == 0 ==> OwedTo(t, u) == OwedTo(s, u)) && (own == 1 ==> MintedFor(s, u) != {})
  {
    ConsumeOwed(s, r, token, u);
    ConsumeExchanged(s, r, token, u);
    if token in s.live && token.sub == u { assert token in MintedFor(s, u) && token !in ExchangedBy(s, u); }
  }

  lemma OthersUser(s: State, step: Step, u: string)
    requires Enabled(s, step) && (step.Store? || step.Present? || step.Logout? || step.Tick?)
    ensures var t := Next(s, step);
            && OwedTo(t, u) == OwedTo(s, u) && MintedFor(t, u) == MintedFor(s, u)
            && ExchangedBy(t, u) == ExchangedBy(s, u) && t.logins == s.logins
  {
    hide Lapsed, FreshId;
    assert OwedTo(Next(s, step), u) == OwedTo(s, u);
  }

  lemma StepUserAccounts(s: State, step: Step, u: string)
    requires UserAccounted(s, u) && SubjectsMatch(s) && OneStorer(s) && s.live.Keys <= s.stored && Enabled(s, step)
    requires forall t | t in s.live :: s.exchanged[t] == 0
    ensures UserAccounted(Next(s, step), u)
  {
    hide Lapsed, FreshId, SubjectsMatch, Mint, GetDel, MintedFor, OwedTo, ExchangedBy;
    match step
    case Login(r, user, jti) =>
      MintUser(s, r, user, jti, u);
      MintSame(s, r, user, jti);
      LoginUserSame(s, r, user, jti, u);
      NotOwed(s, r, u);
    case Rotate(r, jti) =>
      MintUser(s, r, s.requests[r].user, jti, u);
      MintSame(s, r, s.requests[r].user, jti);
      IsOwed(s, r, u);
    case Consume(r) =>
      ConsumeUser(s, r, s.requests[r].token, u);
    case Store(_) => OthersUser(s, step, u);
    case Present(_, _) => OthersUser(s, step, u);
    case Logout(_) => OthersUser(s, step, u);
    case Tick(_) => OthersUser(s, step, u);
  }

  lemma LoginUserSame(s: State, r: nat, user: string, jti: nat, u: string)
    requires Enabled(s, Login(r, user, jti))
    ensures var t, m := Next(s, Login(r, user, jti)), Mint(s, r, user, jti);
            && MintedFor(t, u) == MintedFor(m, u) && OwedTo(t, u) == OwedTo(m, u) && ExchangedBy(t, u) == ExchangedBy(m, u)
            && t.logins == s.logins + multiset{user}
  {
  }

  lemma NotOwed(s: State, r: nat, u: string)
    requires r !in s.requests
    ensures OwedTo(s, u) - {r} == OwedTo(s, u)
  {
  }

  lemma IsOwed(s: State, r: nat, u: string)
    requires r in s.requests && s.requests[r].Exchanged?
    ensures |OwedTo(s, u) - {r}| == |OwedTo(s, u)| - (if s.requests[r].user == u then 1 else 0)
  {
    if s.requests[r].user == u { assert r in OwedTo(s, u); } else { assert OwedTo(s, u) - {r} == OwedTo(s, u); }
  }

  lemma {:induction false} ExecKeeps(s: State, steps: seq<Step>)
    requires Inv(s) && Exec(s, steps).Some?
    ensures Inv(Exec(s, steps).value)
    decreases |steps|
  {
    hide Inv, Next, Enabled;
    if steps != [] {
      NextKeeps(s, steps[0]);
      ExecKeeps(Next(s, steps[0]), steps[1..]);
    }
  }

  lemma Reachable(steps: seq<Step>)
    requires Exec(INIT, steps).Some?
    ensures Inv(Exec(INIT, steps).value)
  {
    assert Owed(INIT) == {};
    hide Exec;
    ExecKeeps(INIT, steps);
  }

  // ---- over every run ----

  /**
   Every stored token is live, exchanged, logged out or expired, in exactly one of these and exactly once:
   so it is exchanged at most once, and never if it was logged out.
   */
  lemma EachTokenOnce(steps: seq<Step>, t: Token)
    requires Exec(INIT, steps).Some?
    ensures var s := Exec(INIT, steps).value;
            (if t in s.live then 1 else 0) + s.exchanged[t] + s.loggedOut[t] + s.expired[t]
            == if t in s.stored then 1 else 0
  {
    Reachable(steps);
    hide Exec;
    var s := Exec(INIT, steps).value;
    assert multiset(s.stored)[t] == multiset(s.live.Keys)[t] + s.exchanged[t] + s.loggedOut[t] + s.expired[t];
  }

  /** A consumed token's stored user is its subject, so the request is refused exactly when the token is not live. */
  lemma MismatchNeverFires(steps: seq<Step>, r: nat)
    requires Exec(INIT, steps).Some? && Enabled(Exec(INIT, steps).value, Consume(r))
    ensures var s := Exec(INIT, steps).value;
            var token := s.requests[r].token;
            && (token in s.live ==> s.live[token].user == token.sub)
            && Next(s, Consume(r)).requests[r] == if token in s.live then Exchanged(token.sub) else Over(false)
  {
    Reachable(steps);
    hide Exec;
  }

  /** What has happened to a token stays so. */
  lemma {:induction false} HistoryGrows(s: State, steps: seq<Step>, t: Token)
    requires Exec(s, steps).Some?
    ensures var end := Exec(s, steps).value;
            && s.stored <= end.stored
            && s.exchanged[t] <= end.exchanged[t] && s.loggedOut[t] <= end.loggedOut[t] && s.expired[t] <= end.expired[t]
    decreases |steps|
  {
    if steps != [] {
      OneStepGrows(s, steps[0], t);
      hide Next, Enabled;
      HistoryGrows(Next(s, steps[0]), steps[1..], t);
    }
  }

  lemma OneStepGrows(s: State, step: Step, t: Token)
    requires Enabled(s, step)
    ensures var end := Next(s, step);
            && s.stored <= end.stored
            && s.exchanged[t] <= end.exchanged[t] && s.loggedOut[t] <= end.loggedOut[t] && s.expired[t] <= end.expired[t]
  {
    hide FreshId, Lapsed;
  }

  lemma {:induction false} ExecSplit(s: State, a: seq<Step>, b: seq<Step>)
    requires Exec(s, a).Some?
    ensures Exec(s, a + b) == Exec(Exec(s, a).value, b)
    decreases |a|
  {
    if a == [] {
      assert a + b == b;
    } else {
      ExecSplit(Next(s, a[0]), a[1..], b);
      assert (a + b)[1..] == a[1..] + b;
    }
  }

  /** After a logout has removed it, whatever requests were under way or come later, a token is not exchanged. */
  lemma LoggedOutForGood(before: seq<Step>, t: Token, later: seq<Step>)
    requires Exec(INIT, before).Some? && t in Exec(INIT, before).value.live
    requires Exec(INIT, before + [Logout(t)] + later).Some?
    ensures var end := Exec(INIT, before + [Logout(t)] + later).value; t !in end.live && end.exchanged[t] == 0
  {
    var s := Exec(INIT, before).value;
    ExecSplit(INIT, before, [Logout(t)] + later);
    assert before + [Logout(t)] + later == before + ([Logout(t)] + later);
    assert ([Logout(t)] + later)[1..] == later;
    var out := Next(s, Logout(t));
    assert out.loggedOut[t] >= 1;
    assert Exec(s, [Logout(t)] + later) == Exec(out, later);
    hide Exec, Next;
    HistoryGrows(out, later, t);
    EachTokenOnce(before + [Logout(t)] + later, t);
  }

  lemma SubsetSize(a: multiset<Token>, b: multiset<Token>, c: multiset<Token>, d: multiset<Token>, sum: multiset<Token>)
    requires sum == a + b + c + d
    ensures |sum| == |a| + |b| + |c| + |d|
  {
  }

  /** Rotation never multiplies sessions: at any time there are at most as many live tokens as there were logins. */
  lemma SessionsBoundedByLogins(steps: seq<Step>)
    requires Exec(INIT, steps).Some?
    ensures var s := Exec(INIT, steps).value;
            && |s.live.Keys| + |s.exchanged| + |s.loggedOut| + |s.expired| == |s.stored|
            && |s.live.Keys| + |s.loggedOut| + |s.expired| <= |s.logins|
  {
    Reachable(steps);
    hide Exec;
    var s := Exec(INIT, steps).value;
    SubsetSize(multiset(s.live.Keys), s.exchanged, s.loggedOut, s.expired, multiset(s.stored));
    assert |multiset(s.stored)| == |s.stored| && |multiset(s.live.Keys)| == |s.live.Keys|;
    SubsetCardinality(s.stored, s.minted);
  }

  ghost function LiveFor(s: State, user: string): set<Token> {
    set t | t in s.live && t.sub == user
  }

  /** The same for each user: its live tokens never outnumber its own logins, and without a login it has no token. */
  lemma SessionsBoundedPerUser(steps: seq<Step>, user: string)
    requires Exec(INIT, steps).Some?
    ensures var s := Exec(INIT, steps).value;
            && |LiveFor(s, user)| <= s.logins[user]
            && (user !in s.logins ==> forall t | t in s.minted :: t.sub != user)
  {
    Reachable(steps);
    hide Exec;
    var s := Exec(INIT, steps).value;
    assert UserAccounted(s, user);
    LiveApart(s, user);
    SubsetCardinality(LiveFor(s, user) + ExchangedBy(s, user), MintedFor(s, user));
    if user !in s.logins {
      forall t | t in s.minted ensures t.sub != user { assert t.sub == user ==> t in MintedFor(s, user); }
    }
  }

  lemma LiveApart(s: State, user: string)
    requires Inv(s)
    ensures LiveFor(s, user) !! ExchangedBy(s, user) && LiveFor(s, user) + ExchangedBy(s, user) <= MintedFor(s, user)
  {
    hide UserAccounted, Accounted, InTime, SubjectsMatch, Owed;
    forall t | t in LiveFor(s, user) ensures t !in ExchangedBy(s, user) && t in s.minted { LiveOnce(s, t); }
    forall t | t in ExchangedBy(s, user) ensures t in s.minted {
      assert multiset(s.stored)[t] == multiset(s.live.Keys)[t] + s.exchanged[t] + s.loggedOut[t] + s.expired[t];
    }
  }

  /**
   A refresh with a token succeeds if and only if the token was stored, has not expired, names a user, and has been
   neither exchanged nor logged out, whoever else asks.
   */
  lemma RefreshSucceedsExactly(steps: seq<Step>, t: Token, r: nat)
    requires Exec(INIT, steps).Some? && r !in Exec(INIT, steps).value.requests
    ensures var s, shown := Exec(INIT, steps).value, Exec(INIT, steps + [Present(r, t)]);
            && shown.Some? && r in shown.value.requests
            && (shown.value.requests[r].Presented? ==>
                  var end := Exec(INIT, steps + [Present(r, t), Consume(r)]); end.Some? && r in end.value.requests)
            && (t in s.stored && s.exchanged[t] == 0 && s.loggedOut[t] == 0 && s.now < t.exp && t.sub != ""
                <==> shown.value.requests[r].Presented? &&
                     Exec(INIT, steps + [Present(r, t), Consume(r)]).value.requests[r] == Exchanged(t.sub))
  {
    EachTokenOnce(steps, t);
    Reachable(steps);
    ExecSplit(INIT, steps, [Present(r, t)]);
    ExecSplit(INIT, steps, [Present(r, t), Consume(r)]);
    var s := Exec(INIT, steps).value;
    hide Exec, Inv;
    PresentThenConsume(s, t, r);
    var shown := Next(s, Present(r, t));
    OneStep(s, Present(r, t));
    if shown.requests[r].Presented? { TwoSteps(s, Present(r, t), Consume(r)); }
    hide Next, Enabled;
  }

  lemma PresentThenConsume(s: State, t: Token, r: nat)
    requires Inv(s) && r !in s.requests
    requires (if t in s.live then 1 else 0) + s.exchanged[t] + s.loggedOut[t] + s.expired[t]
             == if t in s.stored then 1 else 0
    ensures var shown := Next(s, Present(r, t));
            && Enabled(s, Present(r, t)) && r in shown.requests
            && (shown.requests[r].Presented? ==> Enabled(shown, Consume(r)) && r in Next(shown, Consume(r)).requests)
            && (t in s.stored && s.exchanged[t] == 0 && s.loggedOut[t] == 0 && s.now < t.exp && t.sub != ""
                <==> shown.requests[r].Presented? && Next(shown, Consume(r)).requests[r] == Exchanged(t.sub))
  {
    assert InTime(s) && SubjectsMatch(s) && OneStorer(s);
    hide Conserved, Accounted, UserAccounted, Inv;
  }

  lemma OneStep(s: State, a: Step)
    requires Enabled(s, a)
    ensures Exec(s, [a]) == Some(Next(s, a))
  {
    hide Next, Enabled;
    assert [a][1..] == [];
  }

  lemma TwoSteps(s: State, a: Step, b: Step)
    requires Enabled(s, a) && Enabled(Next(s, a), b)
    ensures Exec(s, [a, b]) == Some(Next(Next(s, a), b))
  {
    hide Next, Enabled;
    assert [a, b][1..] == [b] && [b][1..] == [];
    assert Exec(s, [a, b]) == Exec(Next(s, a), [b]);
  }

  /** What request r may have become after it has consumed a token of `user`. */
  predicate ActsFor(s: State, r: nat, user: string) {
    r in s.requests &&
    match s.requests[r]
    case Exchanged(u) => u == user
    case Minted(token, u) => token.sub == user && u == user
    case Over(_) => true
    case Presented(_) => false
  }

  lemma StepActsFor(s: State, step: Step, r: nat, user: string)
    requires Enabled(s, step) && ActsFor(s, r, user)
    ensures ActsFor(Next(s, step), r, user)
  {
    hide FreshId, Lapsed;
  }

  lemma {:induction false} ExecActsFor(s: State, steps: seq<Step>, r: nat, user: string)
    requires Exec(s, steps).Some? && ActsFor(s, r, user)
    ensures ActsFor(Exec(s, steps).value, r, user)
    decreases |steps|
  {
    hide Next, Enabled, ActsFor;
    if steps != [] {
      StepActsFor(s, steps[0], r, user);
      ExecActsFor(Next(s, steps[0]), steps[1..], r, user);
    }
  }

  /**
   A refresh never changes the user: a request that has consumed a token, whatever happens then, is owed a token of
   that token's subject, or has minted one for that subject, or is over.
   */
  lemma RefreshKeepsUser(before: seq<Step>, r: nat, later: seq<Step>)
    requires Exec(INIT, before).Some? && Enabled(Exec(INIT, before).value, Consume(r))
    requires Exec(INIT, before + [Consume(r)] + later).Some?
    ensures ActsFor(Exec(INIT, before + [Consume(r)] + later).value, r, Exec(INIT, before).value.requests[r].token.sub)
  {
    var s := Exec(INIT, before).value;
    MismatchNeverFires(before, r);
    ExecSplit(INIT, before, [Consume(r)] + later);
    assert before + [Consume(r)] + later == before + ([Consume(r)] + later);
    assert ([Consume(r)] + later)[1..] == later;
    assert Exec(s, [Consume(r)] + later) == Exec(Next(s, Consume(r)), later);
    hide Exec;
    ExecActsFor(Next(s, Consume(r)), later, r, s.requests[r].token.sub);
  }

  lemma {:induction false} SubsetCardinality(a: set<Token>, b: set<Token>)
    requires a <= b
    ensures |a| <= |b|
  {
    assert b == a + (b - a);
  }

  // ---- the service's own steps ----

  class TokenService {
    var now: nat
    var live: map<Token, Entry>
    var requests: map<nat, Request>
    ghost var logins: multiset<string>
    ghost var minted: set<Token>
    ghost var stored: set<Token>
    ghost var exchanged: multiset<Token>
    ghost var loggedOut: multiset<Token>
    ghost var expired: multiset<Token>

    ghost function View(): State
      reads this
    {
      State(now, live, requests, logins, minted, stored, exchanged, loggedOut, expired)
    }

    constructor ()
      ensures View() == INIT && Inv(View())
    {
      now, live, requests := 0, map[], map[];
      logins, minted, stored := multiset{}, {}, {};
      exchanged, loggedOut, expired := multiset{}, multiset{}, multiset{};
      new;
      assert Owed(INIT) == {};
    }

    /** `create_refresh_token`, by a login or by a refresh that has consumed its token. */
    method CreateRefreshToken(r: nat, user: string, jti: nat)
      requires FreshId(View(), jti)
      modifies this`requests, this`minted
      ensures View() == Mint(old(View()), r, user, jti)
      ensures forall t | t in minted - old(minted) ::
                t.sub == user && t.exp == now + 30 * 24 * 3600 && forall o | o in old(minted) :: o.jti != t.jti
    {
      var token := Token(user, jti, now + LIFETIME);
      requests := requests[r := Minted(token, user)];
      minted := minted + {token};
    }

    method LoginUser(r: nat, user: string, jti: nat)
      requires Inv(View()) && Enabled(View(), Login(r, user, jti))
      modifies this
      ensures View() == Next(old(View()), Login(r, user, jti)) && Inv(View())
      ensures forall t | t in minted - old(minted) :: t.sub == user
    {
      NextKeeps(View(), Login(r, user, jti));
      hide Inv;
      CreateRefreshToken(r, user, jti);
      logins := logins + multiset{user};
    }

    /** SET with an expiry. */
    method StoreRefreshToken(r: nat)
      requires Inv(View()) && Enabled(View(), Store(r))
      modifies this
      ensures View() == Next(old(View()), Store(r)) && Inv(View())
    {
      NextKeeps(View(), Store(r));
      hide Inv;
      var q := requests[r];
      live := live[q.token := Entry(q.user, now + LIFETIME)];
      requests := requests[r := Over(true)];
      stored := stored + {q.token};
    }

    /** GETDEL, and the comparison with the subject: the request goes on exactly when the token was live. */
    method ConsumeRefreshToken(r: nat) returns (user: Option<string>)
      requires Inv(View()) && Enabled(View(), Consume(r))
      modifies this
      ensures View() == Next(old(View()), Consume(r)) && Inv(View())
      ensures user.Some? <==> old(requests[r].token in live)
      ensures user.Some? ==> user.value == old(requests)[r].token.sub
    {
      NextKeeps(View(), Consume(r));
      assert SubjectsMatch(View());
      hide Inv, Owed, Conserved, Accounted;
      var token := requests[r].token;
      if token !in live {
        requests := requests[r := Over(false)];
        return None;
      }
      var stored := live[token].user;
      live := live - {token};
      exchanged := exchanged + multiset{token};
      user := if stored == "" || stored != token.sub then None else Some(stored);
      requests := requests[r := if user.None? then Over(false) else Exchanged(stored)];
    }

    /** The new token of a refresh. */
    method RotateRefreshToken(r: nat, jti: nat)
      requires Inv(View()) && Enabled(View(), Rotate(r, jti))
      modifies this
      ensures View() == Next(old(View()), Rotate(r, jti)) && Inv(View())
      ensures forall t | t in minted - old(minted) :: t.sub == old(requests)[r].user
    {
      NextKeeps(View(), Rotate(r, jti));
      hide Inv;
      CreateRefreshToken(r, requests[r].user, jti);
    }

    method LogoutUser(token: Token)
      requires Inv(View())
      modifies this
      ensures View() == Next(old(View()), Logout(token)) && Inv(View())
    {
      NextKeeps(View(), Logout(token));
      hide Inv;
      if token in live {
        live := live - {token};
        loggedOut := loggedOut + multiset{token};
      }
    }
  }
}
