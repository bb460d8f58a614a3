/**
 Capability tokens and the handshake they are for: a token the sender selects is a token the
 target accepts, in spite of skewed clocks (crates/wt-core/src/auth.rs, crates/wt-core/src/store.rs).

 CBOR decoding and Ed25519 verification are functions of a scheme. Clock readings are parameters.
 Seconds are unsigned 64-bit and are compared after a cast to signed, as in the code.
 */
module Tokens {
  import opened Basics

  /** Clock skew allowed on the expiry check, in seconds. */
  const CLOCK_SKEW_SECS: nat := 300
  /** Expiry of an unlimited token: the year 2100. */
  const UNLIMITED_EXP: u64 := 4_102_444_800

  type u64 = x: int | 0 <= x < 0x1_0000_0000_0000_0000

  const I64_END: int := 0x8000_0000_0000_0000

  /** `x as i64`. */
  function AsI64(x: u64): int {
    if x < I64_END then x else x - 0x1_0000_0000_0000_0000
  }

  datatype Cap = Msg

  type TokenId = Bytes

  datatype Claims = Claims(iss: NodeId, sub: NodeId, exp: u64, caps: seq<Cap>, id: TokenId)
  datatype SignedToken = SignedToken(body: Bytes, sig: Bytes)

  /** `unpack` decodes a stored or pasted token, `decode` its claims, `verify` checks a signature. */
  datatype Scheme = Scheme(
    unpack: Bytes -> Option<SignedToken>, decode: Bytes -> Option<Claims>, verify: (NodeId, Bytes, Bytes) -> bool)

  datatype AuthError = BadSignature | BadClaims | Expired | SubjectMismatch | Revoked | MissingCap | NotForUs

  datatype Result<T> = Ok(value: T) | Err(error: AuthError)

  // ----- The token table -----

  datatype TokenRow = TokenRow(id: TokenId, iss: NodeId, sub: NodeId, exp: int, caps: seq<Cap>, raw: Bytes, revoked: bool)

  type TokenTable = map<TokenId, TokenRow>

  function RowOf(c: Claims, raw: Bytes): TokenRow {
    TokenRow(c.id, c.iss, c.sub, AsI64(c.exp), c.caps, raw, false)
  }

  /** A conflicting id keeps its columns except for the raw token and the revocation mark. */
  function TokenInsert(t: TokenTable, row: TokenRow): TokenTable {
    t[row.id := if row.id in t then t[row.id].(raw := row.raw, revoked := row.revoked) else row]
  }

  function TokenRevoke(t: TokenTable, id: TokenId): TokenTable {
    if id in t then t[id := t[id].(revoked := true)] else t
  }

  predicate RevokedIn(t: TokenTable, id: TokenId) {
    id in t && t[id].revoked
  }

  /** Usable at `now` by `sub` towards `iss` for `cap`. */
  predicate Eligible(row: TokenRow, iss: NodeId, sub: NodeId, cap: Cap, now: u64) {
    row.iss == iss && row.sub == sub && !row.revoked && row.exp > AsI64(now) && cap in row.caps
  }

  /** The eligible row that expires last, if there is any. */
  ghost predicate IsFound(t: TokenTable, iss: NodeId, sub: NodeId, cap: Cap, now: u64, r: Option<TokenRow>) {
    match r
    case None => forall id :: id in t ==> !Eligible(t[id], iss, sub, cap, now)
    case Some(row) =>
      && (exists id :: id in t && t[id] == row)
      && Eligible(row, iss, sub, cap, now)
      && forall id :: id in t && Eligible(t[id], iss, sub, cap, now) ==> t[id].exp <= row.exp
  }

  class TokenStore {
    var tokens: TokenTable

    constructor ()
      ensures tokens == map[]
    {
      tokens := map[];
    }

    /** Adds a token, or puts a new raw token and revocation mark into the row of its id. */
    method Insert(row: TokenRow)
      modifies this
      ensures tokens.Keys == old(tokens).Keys + {row.id}
      ensures forall id :: id in old(tokens) && id != row.id ==> tokens[id] == old(tokens)[id]
      ensures tokens[row.id].raw == row.raw && (RevokedIn(tokens, row.id) <==> row.revoked)
      ensures row.id !in old(tokens) ==> tokens[row.id] == row
      ensures row.id in old(tokens) ==>
                tokens[row.id] == old(tokens)[row.id].(raw := row.raw, revoked := row.revoked)
      ensures tokens == TokenInsert(old(tokens), row)
    {
      if row.id in tokens {
        tokens := tokens[row.id := tokens[row.id].(raw := row.raw, revoked := row.revoked)];
      } else {
        tokens := tokens[row.id := row];
      }
    }

    /** The number of tokens revoked. */
    method Revoke(id: TokenId) returns (n: nat)
      modifies this
      ensures tokens == TokenRevoke(old(tokens), id) && (n == 1 <==> id in tokens) && n <= 1
      ensures n == 1 ==> RevokedIn(tokens, id)
    {
      if id !in tokens {
        return 0;
      }
      tokens := tokens[id := tokens[id].(revoked := true)];
      return 1;
    }

    method FindTokenWithCap(iss: NodeId, sub: NodeId, cap: Cap, now: u64) returns (r: Option<TokenRow>)
      ensures IsFound(tokens, iss, sub, cap, now, r)
      ensures r.Some? ==> r.value in tokens.Values && r.value.iss == iss && r.value.sub == sub
      ensures r.Some? ==> !r.value.revoked && cap in r.value.caps && r.value.exp > AsI64(now)
      ensures forall id :: (id in tokens && tokens[id].iss == iss && tokens[id].sub == sub && !tokens[id].revoked
                            && cap in tokens[id].caps && tokens[id].exp > AsI64(now)) ==>
                             r.Some? && tokens[id].exp <= r.value.exp
    {
      r := None;
      var rest := tokens.Keys;
      while rest != {}
        invariant rest <= tokens.Keys
        invariant r.Some? ==> (exists id :: id in tokens && tokens[id] == r.value) && Eligible(r.value, iss, sub, cap, now)
        invariant forall id :: id in tokens && id !in rest && Eligible(tokens[id], iss, sub, cap, now) ==>
                    r.Some? && tokens[id].exp <= r.value.exp
        decreases |rest|
      {
        var id :| id in rest;
        if Eligible(tokens[id], iss, sub, cap, now) && (r.None? || r.value.exp < tokens[id].exp) {
          r := Some(tokens[id]);
        }
        rest := rest - {id};
      }
    }
  }

  // ----- Signing and verifying -----

  /** Expiry of a token signed at `now`, with saturating addition. */
  function ExpOf(now: u64, ttl: Option<u64>): u64 {
    match ttl
    case None => UNLIMITED_EXP
    case Some(secs) => if now + secs < 0x1_0000_0000_0000_0000 then now + secs else 0xFFFF_FFFF_FFFF_FFFF
  }

  function VerifySignedClaims(sc: Scheme, s: SignedToken): Result<Claims> {
    match sc.decode(s.body)
    case None => Err(BadClaims)
    case Some(c) => if sc.verify(c.iss, s.body, s.sig) then Ok(c) else Err(BadSignature)
  }

  /** `up` says whether the token store answers: a failed lookup is taken for "not revoked". */
  function ValidateClaims(c: Claims, cap: Cap, t: TokenTable, up: bool, now: u64): Result<Claims> {
    if AsI64(now) - CLOCK_SKEW_SECS > AsI64(c.exp) then Err(Expired)
    else if up && RevokedIn(t, c.id) then Err(Revoked)
    else if cap !in c.caps then Err(MissingCap)
    else Ok(c)
  }

  /**
   Whether the install `local` accepts the token from `initiator`. What it accepts was signed with its
   own key, for this initiator, with the capability asked for.
   */
  function VerifyToken(sc: Scheme, s: SignedToken, local: NodeId, initiator: NodeId, cap: Cap, t: TokenTable, up: bool, now: u64): (r: Result<Claims>)
    ensures r.Ok? ==> sc.verify(local, s.body, s.sig) && sc.decode(s.body) == Some(r.value)
    ensures r.Ok? ==> r.value.iss == local && r.value.sub == initiator && cap in r.value.caps
  {
    match VerifySignedClaims(sc, s)
    case Err(e) => Err(e)
    case Ok(c) =>
      if c.iss != local then Err(NotForUs)
      else if c.sub != initiator then Err(SubjectMismatch)
      else ValidateClaims(c, cap, t, up, now)
  }

  /** What each refusal means, the guards being tried in this order. */
  lemma RefusalMeans(sc: Scheme, s: SignedToken, local: NodeId, initiator: NodeId, cap: Cap, t: TokenTable, up: bool, now: u64)
    ensures var r := VerifyToken(sc, s, local, initiator, cap, t, up, now);
            match sc.decode(s.body)
            case None => r == Err(BadClaims)
            case Some(c) =>
              && (r == Err(BadSignature) <==> !sc.verify(c.iss, s.body, s.sig))
              && (r == Err(NotForUs) ==> c.iss != local) && (r == Err(SubjectMismatch) ==> c.sub != initiator)
              && (r == Err(Expired) ==> AsI64(now) > AsI64(c.exp) + 300) && (r == Err(Revoked) ==> RevokedIn(t, c.id))
              && (r == Err(MissingCap) ==> cap !in c.caps) && r != Err(BadClaims)
  {
  }

  /** `s` carries the claims `c`, and the key of their issuer has signed them. */
  predicate Genuine(sc: Scheme, s: SignedToken, c: Claims) {
    sc.decode(s.body) == Some(c) && sc.verify(c.iss, s.body, s.sig)
  }

  lemma AcceptedIff(sc: Scheme, s: SignedToken, local: NodeId, initiator: NodeId, cap: Cap, t: TokenTable, up: bool, now: u64, c: Claims)
    ensures VerifyToken(sc, s, local, initiator, cap, t, up, now) == Ok(c) <==>
              && Genuine(sc, s, c) && c.iss == local && c.sub == initiator
              && AsI64(now) - CLOCK_SKEW_SECS <= AsI64(c.exp) && !(up && RevokedIn(t, c.id)) && cap in c.caps
  {
  }

  // ----- Installs granting, importing and revoking tokens -----

  type Installs = map<NodeId, TokenTable>

  datatype Action =
    | Grant(n: NodeId, claims: Claims, signed: SignedToken, raw: Bytes)
    | Import(n: NodeId, claims: Claims, signed: SignedToken, raw: Bytes)
    | Revoke(n: NodeId, id: TokenId)

  /**
   A granted token is signed with the key of its install under a fresh id; an imported one is addressed
   to the install and signed with the key of its issuer.
   */
  predicate Can(sc: Scheme, s: Installs, a: Action) {
    match a
    case Grant(n, claims, signed, raw) =>
      && n in s && claims.iss == n && claims.id !in s[n] && sc.unpack(raw) == Some(signed)
      && sc.decode(signed.body) == Some(claims) && sc.verify(n, signed.body, signed.sig)
    case Import(n, claims, signed, raw) =>
      && n in s && claims.sub == n && sc.unpack(raw) == Some(signed)
      && sc.decode(signed.body) == Some(claims) && sc.verify(claims.iss, signed.body, signed.sig)
    case Revoke(n, id) => n in s
  }

  function Do(sc: Scheme, s: Installs, a: Action): Installs
    requires Can(sc, s, a)
  {
    match a
    case Grant(n, claims, signed, raw) => s[n := TokenInsert(s[n], RowOf(claims, raw))]
    case Import(n, claims, signed, raw) => s[n := TokenInsert(s[n], RowOf(claims, raw))]
    case Revoke(n, id) => s[n := TokenRevoke(s[n], id)]
  }

  predicate IsRun(sc: Scheme, s: Installs, acts: seq<Action>)
    decreases |acts|
  {
    acts == [] || (Can(sc, s, acts[0]) && IsRun(sc, Do(sc, s, acts[0]), acts[1..]))
  }

  function Run(sc: Scheme, s: Installs, acts: seq<Action>): Installs
    requires IsRun(sc, s, acts)
    decreases |acts|
  {
    if acts == [] then s else Run(sc, Do(sc, s, acts[0]), acts[1..])
  }

  predicate Init(s: Installs) {
    forall n :: n in s ==> s[n] == map[]
  }

  /** An id names one signed token: ids are random and signatures cannot be forged. */
  ghost predicate UniqueIds(sc: Scheme) {
    forall s1: SignedToken, s2: SignedToken, c1: Claims, c2: Claims ::
      Genuine(sc, s1, c1) && Genuine(sc, s2, c2) && c1.id == c2.id ==> s1 == s2
  }

  /** A row says what its raw token says. */
  ghost predicate RowOk(sc: Scheme, id: TokenId, row: TokenRow) {
    exists s: SignedToken, c: Claims ::
      && Genuine(sc, s, c) && sc.unpack(row.raw) == Some(s)
      && c.id == id && row == RowOf(c, row.raw).(revoked := row.revoked)
  }

  ghost predicate TableOk(sc: Scheme, t: TokenTable) {
    forall id :: id in t ==> RowOk(sc, id, t[id])
  }

  /** Re-importing an id changes the raw bytes at most, never what the row says. */
  lemma InsertOk(sc: Scheme, t: TokenTable, c: Claims, s: SignedToken, raw: Bytes)
    requires UniqueIds(sc) && TableOk(sc, t) && Genuine(sc, s, c) && sc.unpack(raw) == Some(s)
    ensures TableOk(sc, TokenInsert(t, RowOf(c, raw)))
  {
    var t' := TokenInsert(t, RowOf(c, raw));
    forall id | id in t' ensures RowOk(sc, id, t'[id]) {
      if id == c.id {
        if id in t {
          var s1, c1 :| Genuine(sc, s1, c1) && sc.unpack(t[id].raw) == Some(s1)
                        && c1.id == id && t[id] == RowOf(c1, t[id].raw).(revoked := t[id].revoked);
          assert s1 == s && c1 == c;
        }
        assert Genuine(sc, s, c) && t'[id] == RowOf(c, t'[id].raw).(revoked := t'[id].revoked);
      } else {
        assert RowOk(sc, id, t[id]);
      }
    }
  }

  lemma RevokeOk(sc: Scheme, t: TokenTable, id: TokenId)
    requires TableOk(sc, t)
    ensures TableOk(sc, TokenRevoke(t, id))
  {
    var t' := TokenRevoke(t, id);
    forall x | x in t' ensures RowOk(sc, x, t'[x]) {
      var s1, c1 :| Genuine(sc, s1, c1) && sc.unpack(t[x].raw) == Some(s1)
                    && c1.id == x && t[x] == RowOf(c1, t[x].raw).(revoked := t[x].revoked);
      assert t'[x] == RowOf(c1, t'[x].raw).(revoked := t'[x].revoked);
    }
  }

  lemma {:induction false} RowsOk(sc: Scheme, s: Installs, acts: seq<Action>)
    requires UniqueIds(sc) && IsRun(sc, s, acts) && forall n :: n in s ==> TableOk(sc, s[n])
    ensures forall n :: n in Run(sc, s, acts) ==> TableOk(sc, Run(sc, s, acts)[n])
    decreases |acts|
  {
    if acts != [] {
      match acts[0] {
        case Grant(n, claims, signed, raw) => InsertOk(sc, s[n], claims, signed, raw);
        case Import(n, claims, signed, raw) => InsertOk(sc, s[n], claims, signed, raw);
        case Revoke(n, id) => RevokeOk(sc, s[n], id);
      }
      RowsOk(sc, Do(sc, s, acts[0]), acts[1..]);
    }
  }

  // ----- Main results -----

  /** What a token row stands for: genuine claims of its own fields, in its raw bytes. */
  lemma RowMeans(sc: Scheme, t: TokenTable, row: TokenRow) returns (s: SignedToken, c: Claims)
    requires TableOk(sc, t) && exists id :: id in t && t[id] == row
    ensures sc.unpack(row.raw) == Some(s) && Genuine(sc, s, c) && row == RowOf(c, row.raw).(revoked := row.revoked)
  {
    var id :| id in t && t[id] == row;
    assert RowOk(sc, id, row);
    s, c :| Genuine(sc, s, c) && sc.unpack(row.raw) == Some(s) && c.id == id && row == RowOf(c, row.raw).(revoked := row.revoked);
  }

  lemma {:induction false} InstallsStay(sc: Scheme, s: Installs, acts: seq<Action>)
    requires IsRun(sc, s, acts)
    ensures Run(sc, s, acts).Keys == s.Keys
    decreases |acts|
  {
    if acts != [] {
      InstallsStay(sc, Do(sc, s, acts[0]), acts[1..]);
    }
  }

  /**
   The handshake. In every run, when the sender selects a token for the target at its time `now`,
   the raw token it sends decodes, and at any later point of the run the target accepts it at its
   own time `later` iff it knows of no revocation of that id by then and `later` is within the skew
   of the expiry; so always when `later` is at most `now` plus the skew and the token is not revoked.
   The target knows of a revocation if its store answers (`up`).
   */
  lemma HandshakeWithSkew(sc: Scheme, s: Installs, acts: seq<Action>, more: seq<Action>, sender: NodeId, target: NodeId, row: TokenRow, now: u64, up: bool, later: u64)
    requires UniqueIds(sc) && Init(s) && IsRun(sc, s, acts) && IsRun(sc, Run(sc, s, acts), more)
    requires sender in Run(sc, s, acts) && target in Run(sc, Run(sc, s, acts), more) && now < I64_END && later < I64_END
    requires IsFound(Run(sc, s, acts)[sender], target, sender, Msg, now, Some(row))
    ensures var signed := sc.unpack(row.raw);
            && signed.Some?
            && var t := Run(sc, Run(sc, s, acts), more)[target];
               var answer := VerifyToken(sc, signed.value, target, sender, Msg, t, up, later);
               && (answer.Ok? <==> !(up && RevokedIn(t, row.id)) && later - 300 <= row.exp)
               && (later <= now + 300 ==> (answer.Ok? <==> !(up && RevokedIn(t, row.id))))
  {
    RowsOk(sc, s, acts);
    var signed, c := RowMeans(sc, Run(sc, s, acts)[sender], row);
    AcceptedIff(sc, signed, target, sender, Msg, Run(sc, Run(sc, s, acts), more)[target], up, later, c);
  }

  // ----- Revocation -----

  /** A token `n` has granted to somebody else. */
  predicate GrantedAway(t: TokenTable, n: NodeId, id: TokenId) {
    id in t && t[id].iss == n && t[id].sub != n
  }

  lemma RevocationStep(sc: Scheme, s: Installs, a: Action, n: NodeId, id: TokenId)
    requires UniqueIds(sc) && Can(sc, s, a) && n in s && TableOk(sc, s[n]) && GrantedAway(s[n], n, id) && RevokedIn(s[n], id)
    ensures var t := Do(sc, s, a)[n]; TableOk(sc, t) && GrantedAway(t, n, id) && RevokedIn(t, id)
  {
    match a
    case Grant(m, claims, signed, raw) =>
      if m == n {
        InsertOk(sc, s[n], claims, signed, raw);
      }
    case Import(m, claims, signed, raw) =>
      if m == n {
        InsertOk(sc, s[n], claims, signed, raw);
        var s1, c1 := RowMeans(sc, s[n], s[n][id]);
        assert RowOk(sc, id, s[n][id]);
        assert Genuine(sc, signed, claims);
        assert c1.id == claims.id ==> s1 == signed;
      }
    case Revoke(m, x) =>
      if m == n {
        RevokeOk(sc, s[n], x);
      }
  }

  /** A revocation by the issuer is for good: no grant, import or revocation ever takes it back. */
  lemma {:induction false} RevocationSticks(sc: Scheme, s: Installs, acts: seq<Action>, n: NodeId, id: TokenId)
    requires UniqueIds(sc) && IsRun(sc, s, acts) && n in s && TableOk(sc, s[n]) && GrantedAway(s[n], n, id) && RevokedIn(s[n], id)
    ensures n in Run(sc, s, acts) && RevokedIn(Run(sc, s, acts)[n], id)
    decreases |acts|
  {
    if acts != [] {
      RevocationStep(sc, s, acts[0], n, id);
      RevocationSticks(sc, Do(sc, s, acts[0]), acts[1..], n, id);
    }
  }

  /**
   So a token its issuer revoked is refused at every later point of the run and at every time,
   whoever presents it and however often it is imported again, unless the lookup in the issuer's
   store fails: then, and only then, it is accepted, from its subject until it expires.
   */
  lemma RevokedIsRefused(sc: Scheme, s: Installs, acts: seq<Action>, more: seq<Action>, target: NodeId, signed: SignedToken, c: Claims, initiator: NodeId, up: bool, later: u64)
    requires UniqueIds(sc) && Init(s) && IsRun(sc, s, acts) && IsRun(sc, Run(sc, s, acts), more) && target in Run(sc, s, acts)
    requires Genuine(sc, signed, c) && GrantedAway(Run(sc, s, acts)[target], target, c.id) && RevokedIn(Run(sc, s, acts)[target], c.id)
    ensures target in Run(sc, Run(sc, s, acts), more)
    ensures VerifyToken(sc, signed, target, initiator, Msg, Run(sc, Run(sc, s, acts), more)[target], up, later).Ok? <==>
              !up && initiator == c.sub && AsI64(later) - CLOCK_SKEW_SECS <= AsI64(c.exp) && Msg in c.caps
  {
    RowsOk(sc, s, acts);
    RevocationSticks(sc, Run(sc, s, acts), more, target, c.id);
    var t := Run(sc, s, acts)[target];
    var s1, c1 := RowMeans(sc, t, t[c.id]);
    assert RowOk(sc, c.id, t[c.id]);
    AcceptedIff(sc, signed, target, initiator, Msg, Run(sc, Run(sc, s, acts), more)[target], up, later, c);
  }

  // ----- What the selection misses -----

  /** A scheme that knows two tokens, `[1]` and `[2]`, of given claims. */
  function TwoTokens(c1: Claims, c2: Claims): Scheme {
    Scheme(raw => Some(SignedToken(raw, [])),
           body => if body == [1] then Some(c1) else if body == [2] then Some(c2) else None,
           (n, body, sig) => sig == [])
  }

  /** Both tokens are granted and imported, and then the one that expires last is revoked by its issuer. */
  function ShadowingRun(c1: Claims, c2: Claims): seq<Action> {
    var s1, s2 := SignedToken([1], []), SignedToken([2], []);
    [Grant(c1.iss, c1, s1, [1]), Grant(c1.iss, c2, s2, [2]), Import(c1.sub, c1, s1, [1]), Import(c1.sub, c2, s2, [2]), Revoke(c1.iss, c1.id)]
  }

  function ShadowStart(c: Claims): Installs {
    map[c.iss := map[], c.sub := map[]]
  }

  function ShadowEnd(c1: Claims, c2: Claims): Installs {
    var r1, r2 := RowOf(c1, [1]), RowOf(c2, [2]);
    map[c1.iss := map[c1.id := r1.(revoked := true), c2.id := r2], c1.sub := map[c1.id := r1, c2.id := r2]]
  }

  lemma ShadowingIsARun(c1: Claims, c2: Claims)
    requires c1.iss == c2.iss && c1.sub == c2.sub && c1.iss != c1.sub && c1.id != c2.id
    ensures IsRun(TwoTokens(c1, c2), ShadowStart(c1), ShadowingRun(c1, c2))
    ensures Run(TwoTokens(c1, c2), ShadowStart(c1), ShadowingRun(c1, c2)) == ShadowEnd(c1, c2)
  {
    var sc, n, m := TwoTokens(c1, c2), c1.iss, c1.sub;
    var acts, e0 := ShadowingRun(c1, c2), ShadowStart(c1);
    var r1, r2 := RowOf(c1, [1]), RowOf(c2, [2]);
    var e1: Installs := map[n := map[c1.id := r1], m := map[]];
    var e2: Installs := map[n := map[c1.id := r1, c2.id := r2], m := map[]];
    var e3: Installs := map[n := map[c1.id := r1, c2.id := r2], m := map[c1.id := r1]];
    var e4: Installs := map[n := map[c1.id := r1, c2.id := r2], m := map[c1.id := r1, c2.id := r2]];
    assert Do(sc, e0, acts[0]) == e1;
    assert Do(sc, e1, acts[1]) == e2;
    assert Do(sc, e2, acts[2]) == e3;
    assert Do(sc, e3, acts[3]) == e4;
    assert TokenRevoke(e4[n], c1.id) == ShadowEnd(c1, c2)[n];
    assert Do(sc, e4, acts[4]) == ShadowEnd(c1, c2);
    RunCons(sc, e4, acts[4..]);
    RunCons(sc, e3, acts[3..]);
    RunCons(sc, e2, acts[2..]);
    RunCons(sc, e1, acts[1..]);
    RunCons(sc, e0, acts);
  }

  /**
   The selection looks only at what the sender knows. When the target has revoked the token that
   expires last, the sender keeps selecting it and is refused, although it holds another token
   the target would accept.
   */
  lemma RevokedShadowsOlder(c1: Claims, c2: Claims, now: u64)
    requires c1.iss == c2.iss && c1.sub == c2.sub && c1.iss != c1.sub && c1.id != c2.id
    requires now < AsI64(c2.exp) < AsI64(c1.exp) && now < I64_END && c1.caps == c2.caps == [Msg]
    ensures var sc, s, acts := TwoTokens(c1, c2), ShadowStart(c1), ShadowingRun(c1, c2);
            && UniqueIds(sc) && Init(s) && IsRun(sc, s, acts)
            && var e := Run(sc, s, acts);
               && e.Keys == {c1.iss, c1.sub}
               && IsFound(e[c1.sub], c1.iss, c1.sub, Msg, now, Some(RowOf(c1, [1])))
               && VerifyToken(sc, SignedToken([1], []), c1.iss, c1.sub, Msg, e[c1.iss], true, now) == Err(Revoked)
               && Eligible(RowOf(c2, [2]), c1.iss, c1.sub, Msg, now)
               && VerifyToken(sc, SignedToken([2], []), c1.iss, c1.sub, Msg, e[c1.iss], true, now) == Ok(c2)
  {
    ShadowingIsARun(c1, c2);
    assert ShadowEnd(c1, c2)[c1.sub][c1.id] == RowOf(c1, [1]);
  }

  lemma RunCons(sc: Scheme, s: Installs, acts: seq<Action>)
    requires acts != [] && Can(sc, s, acts[0]) && IsRun(sc, Do(sc, s, acts[0]), acts[1..])
    ensures IsRun(sc, s, acts) && Run(sc, s, acts) == Run(sc, Do(sc, s, acts[0]), acts[1..])
  {
  }

  /**
   A token granted at `granted` can be selected at `now` exactly until it expires, and only if its
   expiry fits a signed 64-bit number: a lifetime that saturates beyond it is never usable. One
   without a lifetime expires at the beginning of the year 2100.
   */
  lemma SelectableIff(c: Claims, raw: Bytes, granted: u64, ttl: Option<u64>, now: u64)
    requires c.exp == ExpOf(granted, ttl) && now < I64_END && Msg in c.caps
    ensures Eligible(RowOf(c, raw), c.iss, c.sub, Msg, now) <==>
              if ttl.Some? then now < granted + ttl.value < I64_END else now < 4_102_444_800
  {
  }
}
