/** Refresh-token families (src/modules/auth/services/token.service.ts) under concurrent refreshes. */
module Tokens {
  import opened Common

  type TokenId = nat
  type FamilyId = nat

  /** `parent` is history: the token this one replaced. */
  datatype Token = Token(user: UserId, family: FamilyId, revoked: bool, expiresAt: nat, parent: Option<TokenId>)

  /** Where a call of rotate stands. Claiming the old token and inserting its successor are two
      statements without a transaction around them. */
  datatype Rotation =
    | Validated(token: TokenId)  // read as unrevoked, unexpired, user enabled
    | Claimed(token: TokenId)    // this call flipped `revoked`; the successor is not inserted yet
    | Reused(token: TokenId)     // reuse detected; the family is about to be revoked

  datatype TokenState = TokenState(
    tokens: seq<Token>,
    rotations: map<nat, Rotation>,
    families: nat,              // the next fresh family id
    disabled: set<UserId>,
    now: nat)

  datatype TokenStep =
    | Login(user: UserId, ttl: nat)
    | Present(r: nat, token: TokenId)
    | Claim(r: nat)
    | Issue(r: nat, ttl: nat)
    | RevokeFamily(r: nat)
    | Abandon(r: nat)
    | SetDisabled(user: UserId, disabled: bool)
    | Tick

  /** UPDATE ... SET revoked = true WHERE familyId = f. */
  function RevokedFamily(tokens: seq<Token>, f: FamilyId): seq<Token> {
    seq(|tokens|, i requires 0 <= i < |tokens| =>
      if tokens[i].family == f then tokens[i].(revoked := true) else tokens[i])
  }

  /** rotate up to the claim, for a stored token. */
  function Validate(s: TokenState, r: nat, t: TokenId): TokenState
    requires t < |s.tokens|
  {
    if s.tokens[t].user in s.disabled then s
    else if s.tokens[t].revoked then s.(rotations := s.rotations[r := Reused(t)])
    else if s.tokens[t].expiresAt <= s.now then s
    else s.(rotations := s.rotations[r := Validated(t)])
  }

  /** UPDATE ... WHERE id = t AND revoked = false: at most one caller is affected. */
  function TryClaim(s: TokenState, r: nat): TokenState
    requires r in s.rotations && s.rotations[r].token < |s.tokens|
  {
    var t := s.rotations[r].token;
    if s.tokens[t].revoked then s.(rotations := s.rotations[r := Reused(t)])
    else s.(tokens := s.tokens[t := s.tokens[t].(revoked := true)], rotations := s.rotations[r := Claimed(t)])
  }

  predicate CanToken(s: TokenState, step: TokenStep) {
    match step
    case Login(_, _) => true
    case Present(r, _) => r !in s.rotations
    case Claim(r) => r in s.rotations && s.rotations[r].Validated? && s.rotations[r].token < |s.tokens|
    case Issue(r, _) => r in s.rotations && s.rotations[r].Claimed? && s.rotations[r].token < |s.tokens|
    case RevokeFamily(r) => r in s.rotations && s.rotations[r].Reused? && s.rotations[r].token < |s.tokens|
    case Abandon(r) => r in s.rotations
    case SetDisabled(_, _) => true
    case Tick => true
  }

  function DoToken(s: TokenState, step: TokenStep): TokenState
    requires CanToken(s, step)
  {
    match step
    case Login(user, ttl) =>
      s.(tokens := s.tokens + [Token(user, s.families, false, s.now + ttl, None)], families := s.families + 1)
    case Present(r, t) => if t < |s.tokens| then Validate(s, r, t) else s
    case Claim(r) => TryClaim(s, r)
    case Issue(r, ttl) =>
      var t := s.rotations[r].token;
      s.(tokens := s.tokens + [Token(s.tokens[t].user, s.tokens[t].family, false, s.now + ttl, Some(t))],
         rotations := Without(s.rotations, r))
    case RevokeFamily(r) =>
      s.(tokens := RevokedFamily(s.tokens, s.tokens[s.rotations[r].token].family), rotations := Without(s.rotations, r))
    case Abandon(r) => s.(rotations := Without(s.rotations, r))
    case SetDisabled(user, off) => s.(disabled := if off then s.disabled + {user} else s.disabled - {user})
    case Tick => s.(now := s.now + 1)
  }

  ghost predicate NextTokens(s: TokenState, s': TokenState) {
    exists step :: CanToken(s, step) && s' == DoToken(s, step)
  }

  ghost predicate Follows(run: seq<TokenState>, i: nat)
    requires i + 1 < |run|
  {
    NextTokens(run[i], run[i + 1])
  }

  ghost predicate IsTokenRun(run: seq<TokenState>) {
    && run != [] && run[0].tokens == [] && run[0].rotations == map[]
    && forall i: nat :: i + 1 < |run| ==> Follows(run, i)
  }

  // ---------- the invariant ----------

  /** What can still produce a successor in a family. */
  datatype Holder = LiveToken(token: TokenId) | InFlight(r: nat)

  predicate Holds(s: TokenState, f: FamilyId, x: Holder) {
    match x
    case LiveToken(t) => t < |s.tokens| && s.tokens[t].family == f && !s.tokens[t].revoked
    case InFlight(r) =>
      r in s.rotations && s.rotations[r].Claimed? && s.rotations[r].token < |s.tokens| &&
      s.tokens[s.rotations[r].token].family == f
  }

  predicate IsChild(s: TokenState, c: TokenId, t: TokenId) {
    c < |s.tokens| && s.tokens[c].parent == Some(t)
  }

  ghost predicate TokenOk(s: TokenState, i: TokenId)
    requires i < |s.tokens|
  {
    && s.tokens[i].family < s.families
    && (s.tokens[i].parent.Some? ==>
          var p := s.tokens[i].parent.value;
          && p < i && s.tokens[p].family == s.tokens[i].family && s.tokens[p].user == s.tokens[i].user
          && s.tokens[p].revoked)
  }

  ghost predicate RotationOk(s: TokenState, r: nat)
    requires r in s.rotations
  {
    && s.rotations[r].token < |s.tokens|
    && (s.rotations[r].Claimed? ==>
          s.tokens[s.rotations[r].token].revoked && forall c :: !IsChild(s, c, s.rotations[r].token))
  }

  predicate IsRoot(s: TokenState, i: TokenId, f: FamilyId) {
    i < |s.tokens| && s.tokens[i].parent.None? && s.tokens[i].family == f
  }

  ghost predicate TokensOk(s: TokenState) {
    && (forall i :: 0 <= i < |s.tokens| ==> TokenOk(s, i))
    && (forall r {:trigger RotationOk(s, r)} | r in s.rotations :: RotationOk(s, r))
    && (forall f, x, y :: Holds(s, f, x) && Holds(s, f, y) ==> x == y)
    && (forall c, d, t :: IsChild(s, c, t) && IsChild(s, d, t) ==> c == d)
    && (forall i, j, f :: IsRoot(s, i, f) && IsRoot(s, j, f) ==> i == j)
  }

  // ---------- every step keeps it ----------

  lemma LoginKeeps(s: TokenState, user: UserId, ttl: nat)
    requires TokensOk(s)
    ensures TokensOk(DoToken(s, Login(user, ttl)))
  {
    var s' := DoToken(s, Login(user, ttl));
    var n := |s.tokens|;
    forall i | 0 <= i < |s'.tokens| ensures TokenOk(s', i) {
      if i < n { assert TokenOk(s, i); }
    }
    forall c: TokenId, t: TokenId | IsChild(s', c, t) ensures IsChild(s, c, t) {}
    forall r | r in s'.rotations ensures RotationOk(s', r) { assert RotationOk(s, r); }
    forall f, x, y | Holds(s', f, x) && Holds(s', f, y) ensures x == y {
      HoldsBeforeLogin(s, user, ttl, f, x);
      HoldsBeforeLogin(s, user, ttl, f, y);
    }
    forall i: TokenId, j: TokenId, f | IsRoot(s', i, f) && IsRoot(s', j, f) ensures i == j {
      if i < n { assert TokenOk(s, i) && IsRoot(s, i, f); }
      if j < n { assert TokenOk(s, j) && IsRoot(s, j, f); }
    }
  }

  lemma HoldsBeforeLogin(s: TokenState, user: UserId, ttl: nat, f: FamilyId, x: Holder)
    requires TokensOk(s) && Holds(DoToken(s, Login(user, ttl)), f, x)
    ensures if f == s.families then x == LiveToken(|s.tokens|) else Holds(s, f, x)
  {
    match x
    case LiveToken(t) => if t < |s.tokens| { assert TokenOk(s, t); }
    case InFlight(r) => assert RotationOk(s, r); assert TokenOk(s, s.rotations[r].token);
  }

  lemma ClaimKeeps(s: TokenState, r: nat)
    requires TokensOk(s) && CanToken(s, Claim(r))
    ensures TokensOk(TryClaim(s, r))
  {
    var s' := TryClaim(s, r);
    var t := s.rotations[r].token;
    forall c: TokenId, p: TokenId ensures IsChild(s', c, p) == IsChild(s, c, p) {}
    forall i | 0 <= i < |s'.tokens| ensures TokenOk(s', i) { assert TokenOk(s, i); }
    forall c | IsChild(s, c, t) ensures s.tokens[t].revoked { assert TokenOk(s, c); }
    forall q | q in s'.rotations ensures RotationOk(s', q) {
      assert q in s.rotations && RotationOk(s, q);
    }
    forall f, x, y | Holds(s', f, x) && Holds(s', f, y) ensures x == y {
      ClaimMovesHolder(s, r, f, x);
      ClaimMovesHolder(s, r, f, y);
    }
    forall i: TokenId, j: TokenId, f | IsRoot(s', i, f) && IsRoot(s', j, f) ensures i == j {
      assert IsRoot(s, i, f) && IsRoot(s, j, f);
    }
  }

  /** The claim hands the family from the token to the call; everybody else holds as before. */
  lemma ClaimMovesHolder(s: TokenState, r: nat, f: FamilyId, x: Holder)
    requires TokensOk(s) && CanToken(s, Claim(r)) && Holds(TryClaim(s, r), f, x)
    ensures if x == InFlight(r) then Holds(s, f, LiveToken(s.rotations[r].token)) else Holds(s, f, x)
    ensures x != LiveToken(s.rotations[r].token)
  {
  }

  lemma IssueKeeps(s: TokenState, r: nat, ttl: nat)
    requires TokensOk(s) && CanToken(s, Issue(r, ttl))
    ensures TokensOk(DoToken(s, Issue(r, ttl)))
  {
    var s' := DoToken(s, Issue(r, ttl));
    var t, n := s.rotations[r].token, |s.tokens|;
    assert RotationOk(s, r) && TokenOk(s, t);
    forall c: TokenId, p: TokenId | IsChild(s', c, p) ensures IsChild(s, c, p) || (c == n && p == t) {}
    forall i | 0 <= i < |s'.tokens| ensures TokenOk(s', i) {
      if i < n { assert TokenOk(s, i); }
    }
    forall q | q in s'.rotations ensures RotationOk(s', q) {
      assert RotationOk(s, q);
      if s.rotations[q].Claimed? {
        assert s.rotations[q].token == t ==>
          Holds(s, s.tokens[t].family, InFlight(q)) && Holds(s, s.tokens[t].family, InFlight(r));
      }
    }
    forall f, x, y | Holds(s', f, x) && Holds(s', f, y) ensures x == y {
      IssueMovesHolder(s, r, ttl, f, x);
      IssueMovesHolder(s, r, ttl, f, y);
    }
    forall i: TokenId, j: TokenId, f | IsRoot(s', i, f) && IsRoot(s', j, f) ensures i == j {
      assert IsRoot(s, i, f) && IsRoot(s, j, f);
    }
  }

  lemma IssueMovesHolder(s: TokenState, r: nat, ttl: nat, f: FamilyId, x: Holder)
    requires TokensOk(s) && CanToken(s, Issue(r, ttl)) && Holds(DoToken(s, Issue(r, ttl)), f, x)
    ensures if x == LiveToken(|s.tokens|) then Holds(s, f, InFlight(r)) else Holds(s, f, x)
    ensures x != InFlight(r)
  {
    if x.InFlight? && x.r != r { assert RotationOk(s, x.r); }
  }

  /** Steps that add no token, claim nothing and only revoke. */
  lemma RevokingKeeps(s: TokenState, s': TokenState)
    requires TokensOk(s) && |s'.tokens| == |s.tokens| && s'.families == s.families
    requires forall i :: 0 <= i < |s.tokens| ==>
      s'.tokens[i] == s.tokens[i] || s'.tokens[i] == s.tokens[i].(revoked := true)
    requires forall r | r in s'.rotations ::
      && s'.rotations[r].token < |s.tokens|
      && (s'.rotations[r].Claimed? ==> r in s.rotations && s.rotations[r] == s'.rotations[r])
    ensures TokensOk(s')
  {
    forall c: TokenId, p: TokenId ensures IsChild(s', c, p) == IsChild(s, c, p) {}
    forall i | 0 <= i < |s'.tokens| ensures TokenOk(s', i) { assert TokenOk(s, i); }
    forall r | r in s'.rotations ensures RotationOk(s', r) {
      if s'.rotations[r].Claimed? { assert RotationOk(s, r); }
    }
    forall f, x, y | Holds(s', f, x) && Holds(s', f, y) ensures x == y {
      assert Holds(s, f, x) && Holds(s, f, y);
    }
    forall i: TokenId, j: TokenId, f | IsRoot(s', i, f) && IsRoot(s', j, f) ensures i == j {
      assert IsRoot(s, i, f) && IsRoot(s, j, f);
    }
  }

  lemma RotationsInRange(s: TokenState)
    requires TokensOk(s)
    ensures forall r | r in s.rotations :: s.rotations[r].token < |s.tokens|
  {
    forall r | r in s.rotations ensures s.rotations[r].token < |s.tokens| { assert RotationOk(s, r); }
  }

  lemma TokenStepKeeps(s: TokenState, step: TokenStep)
    requires TokensOk(s) && CanToken(s, step)
    ensures TokensOk(DoToken(s, step))
  {
    match step
    case Login(user, ttl) => LoginKeeps(s, user, ttl);
    case Claim(r) => ClaimKeeps(s, r);
    case Issue(r, ttl) => IssueKeeps(s, r, ttl);
    case _ =>
      RotationsInRange(s);
      RevokingKeeps(s, DoToken(s, step));
  }

  lemma {:induction false} TokenRunOk(run: seq<TokenState>, i: nat)
    requires IsTokenRun(run) && i < |run|
    ensures TokensOk(run[i])
  {
    if i > 0 {
      TokenRunOk(run, i - 1);
      assert Follows(run, i - 1);
      var step :| CanToken(run[i - 1], step) && run[i] == DoToken(run[i - 1], step);
      TokenStepKeeps(run[i - 1], step);
    }
  }

  // ---------- the promises ----------

  /** Unrevoked tokens and rotations in flight of one family. */
  function Holders(s: TokenState, f: FamilyId): set<Holder> {
    (set t | 0 <= t < |s.tokens| && Holds(s, f, LiveToken(t)) :: LiveToken(t)) +
    (set r | r in s.rotations && Holds(s, f, InFlight(r)) :: InFlight(r))
  }

  lemma AtMostOneHolder(run: seq<TokenState>, i: nat, f: FamilyId)
    requires IsTokenRun(run) && i < |run|
    ensures |Holders(run[i], f)| <= 1
  {
    TokenRunOk(run, i);
    var hs := Holders(run[i], f);
    if hs != {} {
      var x :| x in hs;
      forall y | y in hs ensures y == x {
        assert Holds(run[i], f, x) && Holds(run[i], f, y);
      }
      assert hs == {x};
    }
  }

  /** A family is a chain: one root, and nobody has two successors. */
  lemma FamiliesAreChains(run: seq<TokenState>, i: nat, a: TokenId, b: TokenId)
    requires IsTokenRun(run) && i < |run| && a < |run[i].tokens| && b < |run[i].tokens|
    requires run[i].tokens[a].family == run[i].tokens[b].family && run[i].tokens[a].parent == run[i].tokens[b].parent
    ensures a == b
  {
    TokenRunOk(run, i);
    var s := run[i];
    match s.tokens[a].parent
    case None => assert IsRoot(s, a, s.tokens[a].family) && IsRoot(s, b, s.tokens[a].family);
    case Some(p) => assert IsChild(s, a, p) && IsChild(s, b, p);
  }

  /** A family belongs to the user who logged in: every token of it is his. */
  lemma FamilyHasOneUser(run: seq<TokenState>, i: nat, a: TokenId, b: TokenId)
    requires IsTokenRun(run) && i < |run| && a < |run[i].tokens| && b < |run[i].tokens|
    requires run[i].tokens[a].family == run[i].tokens[b].family
    ensures run[i].tokens[a].user == run[i].tokens[b].user
  {
    TokenRunOk(run, i);
    var r := RootOf(run[i], a);
    var q := RootOf(run[i], b);
    assert IsRoot(run[i], r, run[i].tokens[a].family) && IsRoot(run[i], q, run[i].tokens[a].family);
  }

  lemma {:induction false} RootOf(s: TokenState, i: TokenId) returns (r: TokenId)
    requires TokensOk(s) && i < |s.tokens|
    ensures IsRoot(s, r, s.tokens[i].family) && s.tokens[r].user == s.tokens[i].user
    decreases i
  {
    assert TokenOk(s, i);
    if s.tokens[i].parent.None? {
      r := i;
    } else {
      r := RootOf(s, s.tokens[i].parent.value);
    }
  }

  // ---------- who may rotate ----------

  /** A run together with the steps it took. */
  ghost predicate IsTokenTrace(run: seq<TokenState>, steps: seq<TokenStep>) {
    && |run| == |steps| + 1 && run[0].tokens == [] && run[0].rotations == map[]
    && forall i :: 0 <= i < |steps| ==> CanToken(run[i], steps[i]) && run[i + 1] == DoToken(run[i], steps[i])
  }

  /** Step `k` presents token `t` while it is unrevoked, unexpired and its user enabled. */
  predicate FairlyPresented(run: seq<TokenState>, steps: seq<TokenStep>, k: nat, t: TokenId)
    requires |run| == |steps| + 1
  {
    && k < |steps| && steps[k].Present? && steps[k].token == t && t < |run[k].tokens|
    && !run[k].tokens[t].revoked && run[k].now < run[k].tokens[t].expiresAt
    && run[k].tokens[t].user !in run[k].disabled
  }

  ghost predicate Earned(run: seq<TokenState>, steps: seq<TokenStep>, t: TokenId)
    requires |run| == |steps| + 1
  {
    exists k: nat :: FairlyPresented(run, steps, k, t)
  }

  /** Every rotation that has got past its checks, and every successor, goes back to a fair presentation. */
  ghost predicate AllEarned(run: seq<TokenState>, steps: seq<TokenStep>)
    requires |run| == |steps| + 1
  {
    && (forall r | r in Last(run).rotations && !Last(run).rotations[r].Reused? ::
          Earned(run, steps, Last(run).rotations[r].token))
    && (forall c | 0 <= c < |Last(run).tokens| && Last(run).tokens[c].parent.Some? ::
          Earned(run, steps, Last(run).tokens[c].parent.value))
  }

  lemma EarnedGrows(run: seq<TokenState>, steps: seq<TokenStep>, n: nat, t: TokenId)
    requires |run| == |steps| + 1 && n < |steps| && Earned(run[..n + 1], steps[..n], t)
    ensures Earned(run, steps, t)
  {
    var k: nat :| FairlyPresented(run[..n + 1], steps[..n], k, t);
    assert FairlyPresented(run, steps, k, t);
  }

  /** What a step may add: a rotation by a fair presentation, a successor by a claimed rotation. */
  lemma StepEarns(s: TokenState, step: TokenStep)
    requires CanToken(s, step)
    ensures var s' := DoToken(s, step);
      && (forall r | r in s'.rotations && !s'.rotations[r].Reused? ::
            || (r in s.rotations && !s.rotations[r].Reused? && s.rotations[r].token == s'.rotations[r].token)
            || FairlyPresented([s, s'], [step], 0, s'.rotations[r].token))
      && (forall c | 0 <= c < |s'.tokens| && s'.tokens[c].parent.Some? ::
            || (c < |s.tokens| && s.tokens[c].parent == s'.tokens[c].parent)
            || (step.Issue? && s'.tokens[c].parent == Some(s.rotations[step.r].token)))
  {
  }

  lemma {:induction false} TraceEarns(run: seq<TokenState>, steps: seq<TokenStep>)
    requires IsTokenTrace(run, steps)
    ensures AllEarned(run, steps)
  {
    if steps != [] {
      var n := |steps| - 1;
      var run0, steps0 := run[..n + 1], steps[..n];
      var s, s' := run[n], run[n + 1];
      TraceEarns(run0, steps0);
      assert Last(run0) == s;
      StepEarns(s, steps[n]);
      forall r | r in s'.rotations && !s'.rotations[r].Reused? ensures Earned(run, steps, s'.rotations[r].token) {
        if FairlyPresented([s, s'], [steps[n]], 0, s'.rotations[r].token) {
          assert FairlyPresented(run, steps, n, s'.rotations[r].token);
        } else {
          EarnedGrows(run, steps, n, s.rotations[r].token);
        }
      }
      forall c | 0 <= c < |s'.tokens| && s'.tokens[c].parent.Some?
        ensures Earned(run, steps, s'.tokens[c].parent.value)
      {
        EarnedGrows(run, steps, n, s'.tokens[c].parent.value);
      }
    }
  }

  /** A token has a successor only if it was once presented unrevoked, unexpired and by an enabled user. */
  lemma SuccessorsAreEarned(run: seq<TokenState>, steps: seq<TokenStep>, c: TokenId)
    requires IsTokenTrace(run, steps) && c < |Last(run).tokens| && Last(run).tokens[c].parent.Some?
    ensures exists k: nat :: FairlyPresented(run, steps, k, Last(run).tokens[c].parent.value)
  {
    TraceEarns(run, steps);
    assert Earned(run, steps, Last(run).tokens[c].parent.value);
  }

  /** Of two calls that both validated a token, the first to claim it rotates and the other has found reuse. */
  lemma LoserFindsReuse(s: TokenState, r: nat, q: nat, t: TokenId)
    requires r in s.rotations && q in s.rotations && r != q && t < |s.tokens| && !s.tokens[t].revoked
    requires s.rotations[r] == Validated(t) && s.rotations[q] == Validated(t)
    ensures var won := DoToken(s, Claim(r));
      && won.tokens == s.tokens[t := s.tokens[t].(revoked := true)]
      && DoToken(won, Claim(q)) == won.(rotations := won.rotations[q := Reused(t)])
      && won.rotations[r] == Claimed(t) && CanToken(DoToken(won, Claim(q)), RevokeFamily(q))
  {
  }

  /** Reuse detection revokes every token of the family and touches no other. */
  lemma ReuseRevokesOneFamily(s: TokenState, r: nat, i: TokenId)
    requires CanToken(s, RevokeFamily(r)) && i < |s.tokens|
    ensures var f, s' := s.tokens[s.rotations[r].token].family, DoToken(s, RevokeFamily(r));
      && |s'.tokens| == |s.tokens|
      && (s.tokens[i].family == f ==> s'.tokens[i] == s.tokens[i].(revoked := true))
      && (s.tokens[i].family != f ==> s'.tokens[i] == s.tokens[i])
  {
  }

  ghost predicate Dead(s: TokenState, f: FamilyId) {
    f < s.families && forall x :: !Holds(s, f, x)
  }

  /** The tokens ever issued in a family. */
  function Members(s: TokenState, f: FamilyId): set<TokenId> {
    set t | 0 <= t < |s.tokens| && s.tokens[t].family == f
  }

  lemma DeadStays(s: TokenState, step: TokenStep, f: FamilyId)
    requires TokensOk(s) && CanToken(s, step) && Dead(s, f)
    ensures Dead(DoToken(s, step), f) && Members(DoToken(s, step), f) == Members(s, f)
  {
    var s' := DoToken(s, step);
    if step.Issue? {
      assert !Holds(s, f, InFlight(step.r));
    }
    forall x ensures !Holds(s', f, x) {
      assert !Holds(s, f, x);
      if step.Claim? { assert !Holds(s, f, LiveToken(s.rotations[step.r].token)); }
      if x.InFlight? && x.r in s.rotations { assert RotationOk(s, x.r); }
    }
  }

  lemma {:induction false} DeadForever(run: seq<TokenState>, i: nat, j: nat, f: FamilyId)
    requires IsTokenRun(run) && i <= j < |run| && Dead(run[i], f)
    ensures Dead(run[j], f) && Members(run[j], f) == Members(run[i], f)
  {
    if i < j {
      DeadForever(run, i, j - 1, f);
      TokenRunOk(run, j - 1);
      assert Follows(run, j - 1);
      var step :| CanToken(run[j - 1], step) && run[j] == DoToken(run[j - 1], step);
      DeadStays(run[j - 1], step, f);
    }
  }

  /** Reuse detection kills the family for good exactly when no rotation of it is between its claim
      and its insert; otherwise that rotation's successor comes up unrevoked. */
  lemma ReuseKillsFamilyIff(s: TokenState, r: nat)
    requires TokensOk(s) && CanToken(s, RevokeFamily(r))
    ensures var f, s' := s.tokens[s.rotations[r].token].family, DoToken(s, RevokeFamily(r));
      && (Dead(s', f) <==> forall q :: !Holds(s, f, InFlight(q)))
      && (forall q :: Holds(s, f, InFlight(q)) ==>
            CanToken(s', Issue(q, 1)) && Holds(DoToken(s', Issue(q, 1)), f, LiveToken(|s'.tokens|)))
  {
    var f, s' := s.tokens[s.rotations[r].token].family, DoToken(s, RevokeFamily(r));
    assert TokenOk(s, s.rotations[r].token);
    forall q ensures Holds(s', f, InFlight(q)) == Holds(s, f, InFlight(q)) {}
    if forall q :: !Holds(s, f, InFlight(q)) {
      forall x ensures !Holds(s', f, x) {
        if x.InFlight? { assert !Holds(s, f, InFlight(x.r)); }
      }
    }
  }

  ghost predicate TokenReachable(s: TokenState) {
    exists run :: IsTokenRun(run) && Last(run) == s
  }

  lemma ReachableTokenStep(s: TokenState, step: TokenStep)
    requires TokenReachable(s) && CanToken(s, step)
    ensures TokenReachable(DoToken(s, step))
  {
    var run :| IsTokenRun(run) && Last(run) == s;
    var run' := run + [DoToken(s, step)];
    forall i: nat | i + 1 < |run'| ensures Follows(run', i) {
      if i == |run| - 1 {
        assert CanToken(run'[i], step) && run'[i + 1] == DoToken(run'[i], step);
      } else {
        assert Follows(run, i);
      }
    }
    assert IsTokenRun(run') && Last(run') == DoToken(s, step);
  }

  /** User 7's first token, live or claimed, with `rotations` in flight. */
  function OneToken(revoked: bool, rotations: map<nat, Rotation>): TokenState {
    TokenState([Token(7, 0, revoked, 9, None)], rotations, 1, {}, 0)
  }

  lemma LoggedIn()
    ensures TokenReachable(OneToken(false, map[]))
  {
    var s := TokenState([], map[], 0, {}, 0);
    assert IsTokenRun([s]) && Last([s]) == s;
    ReachableTokenStep(s, Login(7, 9));
    assert DoToken(s, Login(7, 9)) == OneToken(false, map[]);
  }

  lemma RotationIsBetween()
    ensures TokenReachable(OneToken(true, map[0 := Claimed(0)]))
  {
    LoggedIn();
    ReachableTokenStep(OneToken(false, map[]), Present(0, 0));
    var s := OneToken(false, map[0 := Validated(0)]);
    assert DoToken(OneToken(false, map[]), Present(0, 0)) == s;
    ReachableTokenStep(s, Claim(0));
    assert s.rotations[0 := Claimed(0)] == map[0 := Claimed(0)];
    assert DoToken(s, Claim(0)) == OneToken(true, map[0 := Claimed(0)]);
  }

  /** The other case occurs: a token presented again while its rotation is between claim and insert. */
  lemma ReuseCanMissASuccessor()
    ensures exists s, r, q, f ::
      && TokenReachable(s) && CanToken(s, RevokeFamily(r)) && s.tokens[s.rotations[r].token].family == f
      && Holds(s, f, InFlight(q)) && !Dead(DoToken(s, RevokeFamily(r)), f)
  {
    RotationIsBetween();
    var s := OneToken(true, map[0 := Claimed(0)]);
    ReachableTokenStep(s, Present(1, 0));
    var s' := DoToken(s, Present(1, 0));
    assert s'.rotations[1] == Reused(0) && CanToken(s', RevokeFamily(1));
    assert Holds(s', 0, InFlight(0)) && Holds(DoToken(s', RevokeFamily(1)), 0, InFlight(0));
  }

  /** Reuse detected with no rotation in flight: no token of that family ever rotates again. */
  lemma ReuseEndsFamily(run: seq<TokenState>, i: nat, r: nat, j: nat)
    requires IsTokenRun(run) && i < j < |run|
    requires CanToken(run[i], RevokeFamily(r)) && run[i + 1] == DoToken(run[i], RevokeFamily(r))
    requires forall q :: !Holds(run[i], run[i].tokens[run[i].rotations[r].token].family, InFlight(q))
    ensures var f := run[i].tokens[run[i].rotations[r].token].family;
      Members(run[j], f) == Members(run[i], f) && forall x :: !Holds(run[j], f, x)
  {
    TokenRunOk(run, i);
    ReuseKillsFamilyIff(run[i], r);
    var f := run[i].tokens[run[i].rotations[r].token].family;
    assert Members(run[i + 1], f) == Members(run[i], f);
    DeadForever(run, i + 1, j, f);
  }

  // ---------- the service, with nothing interleaved ----------

  /** The steps of one rotate call, one after the other. */
  function RotateSteps(s: TokenState, t: TokenId, ttl: nat): TokenState
    requires s.rotations == map[]
  {
    var presented := DoToken(s, Present(0, t));
    if 0 !in presented.rotations then presented
    else if presented.rotations[0].Reused? then DoToken(presented, RevokeFamily(0))
    else DoToken(DoToken(presented, Claim(0)), Issue(0, ttl))
  }

  /** The outcome of a rotate call that nobody interferes with. */
  function RotatedAlone(tokens: seq<Token>, t: TokenId, disabled: set<UserId>, now: nat, ttl: nat): seq<Token> {
    if !Presentable(tokens, t, disabled) then tokens
    else if tokens[t].revoked then RevokedFamily(tokens, tokens[t].family)
    else if Exchangeable(tokens[t], now) then
      tokens[t := tokens[t].(revoked := true)] + [Token(tokens[t].user, tokens[t].family, false, now + ttl, Some(t))]
    else tokens
  }

  lemma RotateStepsAlone(s: TokenState, t: TokenId, ttl: nat)
    requires s.rotations == map[]
    ensures RotateSteps(s, t, ttl) == s.(tokens := RotatedAlone(s.tokens, t, s.disabled, s.now, ttl))
  {
    assert Without(map[0 := Reused(t)], 0) == map[];
    assert Without(map[0 := Claimed(t)], 0) == map[];
    assert map[0 := Validated(t)][0 := Claimed(t)] == map[0 := Claimed(t)];
  }

  datatype RotateResult = Rotated(successor: TokenId) | Unauthorized

  class TokenService {
    var tokens: seq<Token>

    /** The insert of createRefreshToken. */
    method CreateRefreshToken(user: UserId, family: FamilyId, expiresAt: nat, parent: Option<TokenId>)
      returns (id: TokenId)
      modifies this
      ensures id == |old(tokens)| && tokens == old(tokens) + [Token(user, family, false, expiresAt, parent)]
    {
      id := |tokens|;
      tokens := tokens + [Token(user, family, false, expiresAt, parent)];
    }

    /** rotate: a live token is exchanged for one successor of its own family; a revoked one costs
        its whole family, and only that family; every other refusal changes nothing. */
    method Rotate(t: TokenId, disabled: set<UserId>, now: nat, ttl: nat) returns (result: RotateResult)
      modifies this
      ensures result.Rotated? <==> Presentable(old(tokens), t, disabled) && Exchangeable(old(tokens)[t], now)
      ensures result.Rotated? ==> result.successor == |old(tokens)|
      ensures tokens == RotatedAlone(old(tokens), t, disabled, now, ttl)
      ensures result.Rotated? <==>
        t < |old(tokens)| && old(tokens)[t].user !in disabled &&
        !old(tokens)[t].revoked && now < old(tokens)[t].expiresAt
      ensures result.Rotated? ==>
        tokens == old(tokens)[t := old(tokens)[t].(revoked := true)] +
                  [Token(old(tokens)[t].user, old(tokens)[t].family, false, now + ttl, Some(t))]
      ensures result.Unauthorized? ==> |tokens| == |old(tokens)|
      ensures result.Unauthorized? ==> forall i :: 0 <= i < |tokens| ==>
        tokens[i] == if t < |old(tokens)| && old(tokens)[t].user !in disabled && old(tokens)[t].revoked &&
                        old(tokens)[i].family == old(tokens)[t].family
                     then old(tokens)[i].(revoked := true) else old(tokens)[i]
    {
      if t >= |tokens| { return Unauthorized; }
      var stored := tokens[t];
      if stored.user in disabled { return Unauthorized; }
      if stored.revoked {
        tokens := RevokedFamily(tokens, stored.family);
        return Unauthorized;
      }
      if stored.expiresAt <= now { return Unauthorized; }
      tokens := tokens[t := tokens[t].(revoked := true)];
      var id := CreateRefreshToken(stored.user, stored.family, now + ttl, Some(t));
      return Rotated(id);
    }
  }

  /** The token is on file and its user may sign in. */
  predicate Presentable(tokens: seq<Token>, t: TokenId, disabled: set<UserId>) {
    t < |tokens| && tokens[t].user !in disabled
  }

  predicate Exchangeable(token: Token, now: nat) {
    !token.revoked && now < token.expiresAt
  }
}
