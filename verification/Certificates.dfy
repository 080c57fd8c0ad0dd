/** Renewal of the webhook's CA and certificate. Keys and signatures are abstract: a certificate names
    the key that signed it. It is valid from notBefore to notAfter, both included (section 4.1.2.5 of
    RFC 5280), and verifies under a CA that signed it while both are valid (section 6.1 of RFC 5280).
 */
module Certificates {

  datatype Cert = Cert(key: nat, signer: nat, names: seq<string>, notBefore: int, notAfter: int)

  datatype KeyPair = KeyPair(cert: Cert, key: nat)

  // A Secret is absent, empty, unreadable, or holds a key pair.
  datatype Secret = NotFound | NoData | Unreadable | Holds(pair: KeyPair)

  datatype Options = Options(
    caName: string, caValidity: int, certName: string, certNames: seq<string>, certValidity: int, lookahead: int)

  datatype Store = Store(ca: Secret, cert: Secret)

  predicate ValidAt(c: Cert, at: int) { c.notBefore <= at <= c.notAfter }

  predicate Issued(ca: Cert, pair: KeyPair, name: string) {
    pair.cert.key == pair.key && pair.cert.signer == ca.key && name in pair.cert.names
  }

  // pki.ValidCert.
  predicate ValidCert(ca: Cert, pair: KeyPair, name: string, at: int) {
    Issued(ca, pair, name) && ValidAt(pair.cert, at) && ValidAt(ca, at)
  }

  // What the webhook's clients check.
  predicate Verifies(o: Options, s: Store, at: int) {
    s.ca.Holds? && s.cert.Holds? && ValidCert(s.ca.pair.cert, s.cert.pair, o.certName, at)
  }

  // Validities outlast the lookahead and the certificate is issued for the name that is checked.
  predicate Adequate(o: Options) {
    o.caValidity >= o.lookahead >= 0 && o.certValidity >= o.lookahead && o.certName in o.certNames
  }

  predicate Begun(x: Secret, now: int) { x.Holds? ==> x.pair.cert.notBefore <= now }

  // ---- One reconcile, as a function of everything that can go wrong ----

  datatype Kind = CA | Leaf(issuer: KeyPair)

  datatype World = World(store: Store, now: int, keys: nat)    // keys from here on have not been generated

  // One call of reconcileKeyPair: whether the Secret could be fetched, whether the write took effect and
  // whether it reported success, and how long things took.
  datatype Call = Call(fetched: bool, written: bool, reported: bool, get: nat, begin: nat, create: nat, write: nat)

  // Both calls for each of the two Secrets, and the time before each validity check.
  datatype Calls = Calls(ca: Call, newCA: Call, cert: Call, newCert: Call, checkCA: nat, checkCert: nat)

  datatype Outcome = Failed | Done(pair: KeyPair, refreshed: bool)

  function Get(s: Store, kind: Kind): Secret {
    if kind.CA? then s.ca else s.cert
  }

  function Put(s: Store, kind: Kind, x: Secret): Store {
    if kind.CA? then s.(ca := x) else s.(cert := x)
  }

  function NewPair(o: Options, kind: Kind, key: nat, begun: int, made: int): KeyPair {
    if kind.CA?
    then KeyPair(Cert(key, key, [o.caName], begun - 3600, made + o.caValidity), key)
    else KeyPair(Cert(key, kind.issuer.key, o.certNames, begun - 3600, made + o.certValidity), key)
  }

  function KeyPairResult(o: Options, kind: Kind, refresh: bool, w: World, c: Call): (World, Outcome) {
    var t := w.now + c.get;
    var secret := Get(w.store, kind);
    if !c.fetched then (w.(now := t), Failed)
    else if secret.NotFound? || secret.NoData? || refresh then
      var made := t + c.begin + c.create;
      var pair := NewPair(o, kind, w.keys, t + c.begin, made);
      (World(if c.written then Put(w.store, kind, Holds(pair)) else w.store, made + c.write, w.keys + 1),
       if c.written && c.reported then Done(pair, true) else Failed)
    else if secret.Unreadable? then (w.(now := t), Failed)
    else (w.(now := t), Done(secret.pair, false))
  }

  function Elapsed(w: World, d: nat): World { w.(now := w.now + d) }

  function CAResult(o: Options, w: World, cs: Calls): (World, Outcome) {
    var (u, r) := KeyPairResult(o, CA, false, w, cs.ca);
    if r.Failed? then (u, r)
    else
      var v := Elapsed(u, cs.checkCA);
      if ValidCert(r.pair.cert, r.pair, o.caName, v.now + o.lookahead) then (v, r)
      else KeyPairResult(o, CA, true, v, cs.newCA)
  }

  function CertResult(o: Options, w: World, ca: KeyPair, freshCA: bool, cs: Calls): (World, Outcome) {
    var (u, r) := KeyPairResult(o, Leaf(ca), false, w, cs.cert);
    if r.Failed? then (u, r)
    else
      var v := Elapsed(u, cs.checkCert);
      if !freshCA && ValidCert(ca.cert, r.pair, o.certName, v.now + o.lookahead) then (v, r)
      else KeyPairResult(o, Leaf(ca), true, v, cs.newCert)
  }

  function Reconciled(o: Options, w: World, cs: Calls): (World, Outcome) {
    var (u, r) := CAResult(o, w, cs);
    if r.Failed? then (u, r) else CertResult(o, u, r.pair, r.refreshed, cs)
  }

  // ---- What it leaves behind, whatever goes wrong ----

  predicate Known(x: Secret, keys: nat) {
    x.Holds? ==> x.pair.cert.key < keys && x.pair.cert.signer < keys && x.pair.key < keys
  }

  predicate Valid(w: World) { Known(w.store.ca, w.keys) && Known(w.store.cert, w.keys) }

  datatype Attempt = Attempt(start: int, end: int, before: Store, after: Store, ok: bool)

  function AttemptOf(o: Options, w: World, cs: Calls): Attempt {
    var (u, r) := Reconciled(o, w, cs);
    Attempt(w.now, u.now, w.store, u.store, r.Done?)
  }

  ghost predicate VerifiesFromTo(o: Options, s: Store, from: int, to: int) {
    forall at | from <= at <= to :: Verifies(o, s, at)
  }

  // Guard of the renewal: the stored CA is still valid at the lookahead.
  predicate SoundCA(o: Options, s: Store, now: int) {
    s.ca.Holds? && ValidCert(s.ca.pair.cert, s.ca.pair, o.caName, now + o.lookahead)
  }

  predicate AllBegun(s: Store, now: int) { Begun(s.ca, now) && Begun(s.cert, now) }

  // The certificate is one the stored CA has just signed.
  predicate FreshCert(o: Options, a: Attempt) {
    && a.after.ca.Holds? && a.after.cert.Holds?
    && var p := a.after.cert.pair;
       && p.cert.key == p.key && p.cert.signer == a.after.ca.pair.cert.key && p.cert.names == o.certNames
       && p.cert.notBefore <= a.end && p.cert.notAfter >= a.start + o.certValidity
  }

  ghost predicate Conforms(o: Options, a: Attempt) {
    && a.start <= a.end
    && (AllBegun(a.before, a.start) ==> AllBegun(a.after, a.end))
    // The CA is left alone if it stays sound to the end, and replaced by a success if it was not sound.
    && (AllBegun(a.before, a.start) && SoundCA(o, a.before, a.end) && o.lookahead >= 0 ==> a.after.ca == a.before.ca)
    && (AllBegun(a.before, a.start) && !SoundCA(o, a.before, a.start) && o.lookahead >= 0 && a.ok ==>
          a.after.ca != a.before.ca)
    // A success: the pair verifies until the lookahead, counted from the start of the reconcile.
    && (a.ok && Adequate(o) && AllBegun(a.before, a.start) ==> VerifiesFromTo(o, a.after, a.end, a.start + o.lookahead))
    // A failure that left the CA alone: the certificate is the old one or one this CA has signed.
    && (!a.ok && a.after.ca == a.before.ca ==> a.after.cert == a.before.cert || FreshCert(o, a))
    // An attempt that replaced only the CA: nothing verifies.
    && (a.after.ca != a.before.ca && a.after.cert == a.before.cert ==> forall at :: !Verifies(o, a.after, at))
  }

  // A key pair of this kind made between two instants, with a key never seen before.
  predicate Made(o: Options, kind: Kind, p: KeyPair, from: int, to: int, key: nat) {
    && p.key == p.cert.key == key
    && p.cert.signer == (if kind.CA? then key else kind.issuer.key)
    && p.cert.names == (if kind.CA? then [o.caName] else o.certNames)
    && from - 3600 <= p.cert.notBefore <= to - 3600
    && from <= p.cert.notAfter - (if kind.CA? then o.caValidity else o.certValidity) <= to
  }

  // The Secret changes only to a pair just made, always when a refresh succeeds, and never without one
  // when it holds a pair; what is returned is what is stored.
  lemma KeyPairStep(o: Options, kind: Kind, refresh: bool, w: World, c: Call)
    requires Valid(w) && (kind.Leaf? ==> kind.issuer.key < w.keys)
    ensures
      var (u, r) := KeyPairResult(o, kind, refresh, w, c);
      && Valid(u) && u.now >= w.now && u.keys >= w.keys
      && (u.store != w.store ==>
            && Get(u.store, kind).Holds? && u.store == Put(w.store, kind, Get(u.store, kind))
            && Made(o, kind, Get(u.store, kind).pair, w.now, u.now, w.keys))
      && (r.Done? ==> Get(u.store, kind) == Holds(r.pair) && (r.refreshed <==> u.store != w.store))
      && (r.Done? && refresh ==> r.refreshed)
      && (!refresh && (Get(w.store, kind).Holds? || Get(w.store, kind).Unreadable?) ==> u.store == w.store)
      // It fails exactly when a call it makes fails or what is stored cannot be read.
      && (r.Failed? <==>
            || !c.fetched || (!refresh && Get(w.store, kind).Unreadable?)
            || ((refresh || Get(w.store, kind).NotFound? || Get(w.store, kind).NoData?) && !(c.written && c.reported)))
  {
  }

  // What the CA's half of a reconcile does.
  ghost predicate CAStep(o: Options, w: World, u: World, r: Outcome) {
    && Valid(u) && u.now >= w.now && u.keys >= w.keys && u.store.cert == w.store.cert
    && (u.store.ca != w.store.ca ==>
          && u.store.ca.Holds? && u.store.ca.pair.key >= w.keys
          && Made(o, CA, u.store.ca.pair, w.now, u.now, u.store.ca.pair.key))
    && (r.Done? ==>
          && u.store.ca == Holds(r.pair) && r.pair.key == r.pair.cert.key
          && (r.refreshed <==> u.store.ca != w.store.ca))
    && (r.Done? && !r.refreshed ==> exists t | w.now <= t <= u.now :: SoundCA(o, w.store, t))
    && ((forall t | w.now <= t <= u.now :: SoundCA(o, w.store, t)) ==> u.store.ca == w.store.ca)
    && (w.store.ca.Unreadable? ==> r.Failed? && u.store == w.store)
  }

  lemma CAStepHolds(o: Options, w: World, cs: Calls)
    requires Valid(w)
    ensures var (u, r) := CAResult(o, w, cs); CAStep(o, w, u, r)
  {
    KeyPairStep(o, CA, false, w, cs.ca);
    assert SoundCA(o, w.store, w.now) ==> w.store.ca.Holds?;
    var (u, r) := KeyPairResult(o, CA, false, w, cs.ca);
    if r.Done? {
      var v := Elapsed(u, cs.checkCA);
      KeyPairStep(o, CA, true, v, cs.newCA);
      if w.store.ca.Holds? {
        assert ValidCert(r.pair.cert, r.pair, o.caName, v.now + o.lookahead) <==> SoundCA(o, w.store, v.now);
      }
    }
  }

  // What the certificate's half does.
  ghost predicate CertStep(o: Options, w: World, ca: KeyPair, freshCA: bool, u: World, r: Outcome) {
    && Valid(u) && u.now >= w.now && u.store.ca == w.store.ca
    && (u.store.cert != w.store.cert ==>
          && u.store.cert.Holds? && u.store.cert.pair.key >= w.keys
          && Made(o, Leaf(ca), u.store.cert.pair, w.now, u.now, u.store.cert.pair.key))
    && (r.Done? && freshCA ==> u.store.cert != w.store.cert)
    && (r.Done? && u.store.cert == w.store.cert ==>
          && u.store.cert.Holds? && Issued(ca.cert, u.store.cert.pair, o.certName)
          && u.store.cert.pair.cert.notAfter >= w.now + o.lookahead)
    && (w.store.cert.Unreadable? ==> r.Failed? && u.store == w.store)
  }

  predicate SoundCert(o: Options, s: Store, ca: KeyPair, now: int) {
    s.cert.Holds? && ValidCert(ca.cert, s.cert.pair, o.certName, now + o.lookahead)
  }

  lemma CertStepHolds(o: Options, w: World, ca: KeyPair, freshCA: bool, cs: Calls)
    requires Valid(w) && w.store.ca == Holds(ca)
    ensures var (u, r) := CertResult(o, w, ca, freshCA, cs); CertStep(o, w, ca, freshCA, u, r)
  {
    KeyPairStep(o, Leaf(ca), false, w, cs.cert);
    var (u, r) := KeyPairResult(o, Leaf(ca), false, w, cs.cert);
    if r.Done? {
      KeyPairStep(o, Leaf(ca), true, Elapsed(u, cs.checkCert), cs.newCert);
    }
  }

  // A certificate of the stored CA that lasts to the lookahead is kept.
  lemma SoundCertIsKept(o: Options, w: World, ca: KeyPair, cs: Calls)
    requires forall t | w.now <= t <= CertResult(o, w, ca, false, cs).0.now :: SoundCert(o, w.store, ca, t)
    ensures CertResult(o, w, ca, false, cs).0.store == w.store
  {
    var (u, r) := KeyPairResult(o, Leaf(ca), false, w, cs.cert);
    assert SoundCert(o, w.store, ca, w.now);
    if r.Done? {
      assert SoundCert(o, w.store, ca, Elapsed(u, cs.checkCert).now);
    }
  }

  // Every call works.
  predicate Works(c: Call) { c.fetched && c.written && c.reported }

  // When every call works, the reconcile succeeds exactly when no Secret is unreadable.
  lemma WorkingCallsSucceed(o: Options, w: World, cs: Calls)
    requires Valid(w) && Works(cs.ca) && Works(cs.newCA) && Works(cs.cert) && Works(cs.newCert)
    ensures Reconciled(o, w, cs).1.Done? <==> !w.store.ca.Unreadable? && !w.store.cert.Unreadable?
  {
    CAStepHolds(o, w, cs);
    var (u, r) := CAResult(o, w, cs);
    if !w.store.ca.Unreadable? {
      assert r.Done?;
      CertStepHolds(o, u, r.pair, r.refreshed, cs);
    }
  }

  // A stored pair that stays valid at the lookahead until the end is left alone.
  lemma SoundPairIsKept(o: Options, w: World, cs: Calls)
    requires Valid(w) && AllBegun(w.store, w.now) && o.lookahead >= 0
    requires SoundCA(o, w.store, Reconciled(o, w, cs).0.now)
    requires SoundCert(o, w.store, w.store.ca.pair, Reconciled(o, w, cs).0.now)
    ensures Reconciled(o, w, cs).0.store == w.store
  {
    CAStepHolds(o, w, cs);
    var (u, r) := CAResult(o, w, cs);
    var end := Reconciled(o, w, cs).0.now;
    if r.Done? {
      CertStepHolds(o, u, r.pair, r.refreshed, cs);
    }
    forall t | w.now <= t <= end ensures SoundCA(o, w.store, t) && SoundCert(o, w.store, w.store.ca.pair, t) {
      SoundBetween(o, w.store, w.now, end, t);
    }
    if r.Done? {
      SoundCertIsKept(o, u, r.pair, cs);
    }
  }

  lemma SoundBetween(o: Options, s: Store, start: int, end: int, t: int)
    requires Begun(s.ca, start) && o.lookahead >= 0 && start <= t <= end
    ensures SoundCA(o, s, end) ==> SoundCA(o, s, t)
    ensures SoundCA(o, s, t) ==> SoundCA(o, s, start)
  {
  }

  // Whatever goes wrong, every reconcile conforms.
  lemma ReconciledConforms(o: Options, w: World, cs: Calls)
    requires Valid(w)
    ensures Conforms(o, AttemptOf(o, w, cs)) && Valid(Reconciled(o, w, cs).0)
  {
    CAStepHolds(o, w, cs);
    var (u, r) := CAResult(o, w, cs);
    var a := AttemptOf(o, w, cs);
    if r.Done? {
      CertStepHolds(o, u, r.pair, r.refreshed, cs);
    }
    if AllBegun(w.store, w.now) && o.lookahead >= 0 {
      forall t | w.now <= t <= a.end ensures SoundCA(o, w.store, a.end) ==> SoundCA(o, w.store, t) {
        SoundBetween(o, w.store, w.now, a.end, t);
      }
      forall t | w.now <= t <= u.now && SoundCA(o, w.store, t) ensures SoundCA(o, w.store, w.now) {
        SoundBetween(o, w.store, w.now, u.now, t);
      }
    }
  }

  // ---- Whole histories ----

  // Attempts in order; nobody else writes the two Secrets in between.
  ghost predicate Timeline(o: Options, h: seq<Attempt>) {
    && (forall k | 0 <= k < |h| :: Conforms(o, h[k]))
    && (forall k: nat | 0 < k < |h| :: Follows(h, k))
  }

  predicate Follows(h: seq<Attempt>, k: nat)
    requires 0 < k < |h|
  {
    h[k - 1].end <= h[k].start && h[k - 1].after == h[k].before
  }

  // The attempt, successful or not, that last succeeded at or before k.
  function LastSuccess(h: seq<Attempt>, k: nat): (j: nat)
    requires k < |h| && h[0].ok
    ensures j <= k && h[j].ok && forall i | j < i <= k :: !h[i].ok
  {
    if h[k].ok then k else LastSuccess(h, k - 1)
  }

  // An attempt fails only where the stored CA is valid at the lookahead until it ends, and every attempt
  // starts within the lookahead of the last success.
  predicate Regular(o: Options, h: seq<Attempt>)
    requires |h| > 0 && h[0].ok
  {
    && (forall k | 0 <= k < |h| && !h[k].ok :: SoundCA(o, h[k].before, h[k].end))
    && (forall k: nat | 0 < k < |h| :: InTime(o, h, k))
  }

  predicate InTime(o: Options, h: seq<Attempt>, k: nat)
    requires 0 < k < |h| && h[0].ok
  {
    h[k].start <= h[LastSuccess(h, k - 1)].start + o.lookahead
  }

  lemma {:induction false} BegunAfter(o: Options, h: seq<Attempt>, k: nat)
    requires Timeline(o, h) && k < |h|
    requires AllBegun(h[0].before, h[0].start)
    ensures AllBegun(h[k].before, h[k].start)
  {
    if k > 0 {
      BegunAfter(o, h, k - 1);
      assert Follows(h, k) && Conforms(o, h[k - 1]);
    }
  }

  // A failed attempt that left the CA alone leaves a pair that verifies as long as before.
  lemma FailureKeeps(o: Options, a: Attempt, to: int)
    requires Conforms(o, a) && !a.ok && a.after.ca == a.before.ca && Adequate(o)
    requires a.start <= to <= a.start + o.lookahead && VerifiesFromTo(o, a.before, a.start, to)
    ensures VerifiesFromTo(o, a.after, a.end, to)
  {
    assert Verifies(o, a.before, a.start) && Verifies(o, a.before, to);
  }

  // When the stored CA will not be valid at the lookahead at some instant, an attempt can replace it then
  // and fail before it has replaced the certificate: nothing verifies any more.
  lemma BreakingAttempt(o: Options, w: World, limit: int) returns (cs: Calls)
    requires Valid(w) && w.store.ca.Holds? && w.now <= limit && !SoundCA(o, w.store, limit)
    ensures
      var a := AttemptOf(o, w, cs);
      !a.ok && a.end == limit && a.after.ca != a.before.ca && forall at :: !Verifies(o, a.after, at)
  {
    var read := Call(true, true, true, limit - w.now, 0, 0, 0);
    var write := Call(true, true, true, 0, 0, 0, 0);
    var fail := Call(false, false, false, 0, 0, 0, 0);
    cs := Calls(read, write, fail, fail, 0, 0);
    ReconciledConforms(o, w, cs);
  }

  // While a pair verifies, the attempts that end by some instant leave it verifying whenever they fail, if
  // and only if the stored CA is valid at the lookahead of that instant.
  lemma FailuresAreHarmlessExactly(o: Options, w: World, limit: int, to: int)
    requires Valid(w) && Adequate(o) && AllBegun(w.store, w.now)
    requires w.now <= limit <= to <= w.now + o.lookahead && VerifiesFromTo(o, w.store, w.now, to)
    ensures (forall cs | !AttemptOf(o, w, cs).ok && AttemptOf(o, w, cs).end <= limit ::
               VerifiesFromTo(o, AttemptOf(o, w, cs).after, AttemptOf(o, w, cs).end, to)) <==>
            SoundCA(o, w.store, limit)
  {
    assert Verifies(o, w.store, w.now);
    if SoundCA(o, w.store, limit) {
      forall cs | !AttemptOf(o, w, cs).ok && AttemptOf(o, w, cs).end <= limit
        ensures VerifiesFromTo(o, AttemptOf(o, w, cs).after, AttemptOf(o, w, cs).end, to)
      {
        var a := AttemptOf(o, w, cs);
        ReconciledConforms(o, w, cs);
        SoundBetween(o, w.store, w.now, limit, a.end);
        FailureKeeps(o, a, to);
      }
    } else {
      var cs := BreakingAttempt(o, w, limit);
      assert !Verifies(o, AttemptOf(o, w, cs).after, limit);
    }
  }

  lemma {:induction false} InOrder(o: Options, h: seq<Attempt>, j: nat, k: nat)
    requires Timeline(o, h) && j <= k < |h|
    ensures h[j].start <= h[k].start
  {
    if j < k {
      InOrder(o, h, j, k - 1);
      assert Follows(h, k) && Conforms(o, h[k - 1]);
    }
  }

  // One attempt carries on what the one before left.
  lemma VerifiesStep(o: Options, p: Attempt, a: Attempt, since: int)
    requires Conforms(o, a) && Adequate(o) && p.end <= a.start && p.after == a.before
    requires since <= a.start <= since + o.lookahead && VerifiesFromTo(o, p.after, p.end, since + o.lookahead)
    requires AllBegun(a.before, a.start)
    requires !a.ok ==> SoundCA(o, a.before, a.end)
    ensures VerifiesFromTo(o, a.after, a.end, (if a.ok then a.start else since) + o.lookahead)
  {
    if !a.ok {
      FailureKeeps(o, a, since + o.lookahead);
    }
  }

  lemma {:induction false} VerifiesAfter(o: Options, h: seq<Attempt>, k: nat)
    requires |h| > 0 && h[0].ok && Timeline(o, h) && Adequate(o) && Regular(o, h) && k < |h|
    requires AllBegun(h[0].before, h[0].start)
    ensures VerifiesFromTo(o, h[k].after, h[k].end, h[LastSuccess(h, k)].start + o.lookahead)
  {
    assert Conforms(o, h[k]);
    if k > 0 {
      var j := LastSuccess(h, k - 1);
      BegunAfter(o, h, k);
      VerifiesAfter(o, h, k - 1);
      InOrder(o, h, j, k);
      assert Follows(h, k) && InTime(o, h, k);
      VerifiesStep(o, h[k - 1], h[k], h[j].start);
    }
  }

  // Certificates never lapse: the stored pair verifies at every instant between attempts.
  lemma NeverLapses(o: Options, h: seq<Attempt>, k: nat, at: int)
    requires |h| > 0 && h[0].ok && Timeline(o, h) && Adequate(o) && Regular(o, h) && k + 1 < |h|
    requires AllBegun(h[0].before, h[0].start)
    requires h[k].end <= at <= h[k + 1].start
    ensures Verifies(o, h[k].after, at)
  {
    VerifiesAfter(o, h, k);
    assert InTime(o, h, k + 1);
  }

  // ---- The reconcile ----

  // Every API call and every creation may fail; a write that reports an error may have happened.
  class CertReconciler {
    const o: Options
    var now: int
    var store: Store
    var keys: nat

    function Now(): World
      reads this
    {
      World(store, now, keys)
    }

    constructor (o: Options, w: World)
      ensures this.o == o && Now() == w
    {
      this.o, now, store, keys := o, w.now, w.store, w.keys;
    }

    method Elapse() returns (ghost d: nat)
      modifies this`now
      ensures now == old(now) + d
    {
      var k: int :| k >= 0;
      now := now + k;
      d := k;
    }

    method Create(kind: Kind) returns (pair: KeyPair, ghost begin: nat, ghost create: nat)
      modifies this`now, this`keys
      ensures now == old(now) + begin + create && keys == old(keys) + 1
      ensures pair == NewPair(o, kind, old(keys), old(now) + begin, now)
    {
      var key := keys;
      keys := keys + 1;
      begin := Elapse();
      var notBefore := now - 3600;
      create := Elapse();
      pair := if kind.CA?
        then KeyPair(Cert(key, key, [o.caName], notBefore, now + o.caValidity), key)
        else KeyPair(Cert(key, kind.issuer.key, o.certNames, notBefore, now + o.certValidity), key);
    }

    method ReconcileKeyPair(kind: Kind, refresh: bool) returns (r: Outcome, ghost c: Call)
      modifies this
      ensures KeyPairResult(o, kind, refresh, old(Now()), c) == (Now(), r)
    {
      ghost var get := Elapse();
      var fetched: bool := *;
      c := Call(fetched, false, false, get, 0, 0, 0);
      if !fetched {
        return Failed, c;
      }
      var secret := Get(store, kind);
      if secret.NotFound? || secret.NoData? || refresh {
        ghost var begin, create;
        var pair;
        pair, begin, create := Create(kind);
        ghost var write := Elapse();
        var written: bool, reported: bool := *, *;
        if written {
          store := Put(store, kind, Holds(pair));
        }
        c := Call(true, written, reported, get, begin, create, write);
        return if written && reported then Done(pair, true) else Failed, c;
      }
      if secret.Unreadable? {
        return Failed, c;
      }
      return Done(secret.pair, false), c;
    }

    method ReconcileCA() returns (r: Outcome, ghost cs: Calls)
      modifies this
      ensures CAResult(o, old(Now()), cs) == (Now(), r)
    {
      ghost var c, d;
      r, c := ReconcileKeyPair(CA, false);
      cs := Calls(c, c, c, c, 0, 0);
      if r.Failed? {
        return;
      }
      d := Elapse();
      cs := Calls(c, c, c, c, d, 0);
      if !ValidCert(r.pair.cert, r.pair, o.caName, now + o.lookahead) {
        r, c := ReconcileKeyPair(CA, true);
        cs := cs.(newCA := c);
      }
    }

    method ReconcileCert(ca: KeyPair, freshCA: bool, ghost before: Calls) returns (r: Outcome, ghost cs: Calls)
      modifies this
      ensures CertResult(o, old(Now()), ca, freshCA, cs) == (Now(), r)
      ensures cs == before.(cert := cs.cert, newCert := cs.newCert, checkCert := cs.checkCert)
    {
      ghost var c, d;
      r, c := ReconcileKeyPair(Leaf(ca), false);
      cs := before.(cert := c);
      if r.Failed? {
        return;
      }
      d := Elapse();
      cs := cs.(checkCert := d);
      if freshCA || !ValidCert(ca.cert, r.pair, o.certName, now + o.lookahead) {
        r, c := ReconcileKeyPair(Leaf(ca), true);
        cs := cs.(newCert := c);
      }
    }

    method Reconcile() returns (r: Outcome, ghost cs: Calls)
      requires Valid(Now())
      modifies this
      ensures Reconciled(o, old(Now()), cs) == (Now(), r)
      ensures Valid(Now()) && Conforms(o, Attempt(old(now), now, old(store), store, r.Done?))
    {
      r, cs := ReconcileCA();
      if r.Done? {
        r, cs := ReconcileCert(r.pair, r.refreshed, cs);
      }
      ReconciledConforms(o, old(Now()), cs);
    }
  }
}
