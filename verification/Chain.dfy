/** The actor chain: a list of signed tokens, each linked to the one before it by hash,
    with a rule for who may sign after a dispatch.

    The hash is any injective function on tokens, handed in as `hash`. Signing is ideal:
    a token remembers the key that really signed it, and the check against a public key
    succeeds for that key alone. */
module Chain {
  import opened Vocabulary

  type Digest = nat

  /** A key as text. Several spellings (upper case, spaces) decode to one key; funduq
      writes the spelling 0, and compares texts, not keys. */
  datatype KeyText = Spelled(key: Key, spelling: nat) | NotAKey(text: nat)

  datatype DispatchTarget = DispatchTarget(providerKey: KeyText, name: string)

  datatype ActorClaim = NoActor | Actor(text: KeyText)

  /** An absent `prevHash` and a null one read the same. */
  datatype PrevClaim = NoPrev | Prev(digest: Digest) | PrevNotText

  datatype DispatchClaim = NoDispatch | Dispatch(target: DispatchTarget) | DispatchNotObject | DispatchIncomplete

  datatype Payload = Payload(actor: ActorClaim, prev: PrevClaim, dispatch: DispatchClaim)

  /** `signedBy` is the key that signed, if any did; `admissible` is false for an
      algorithm other than EdDSA or a registered claim the decoder turns away. */
  datatype Token = Garbage(text: nat) | Signed(payload: Payload, signedBy: Option<Key>, admissible: bool)

  datatype Hop = Hop(actor: KeyText, prevHash: Option<Digest>, dispatchedTo: Option<DispatchTarget>)

  datatype Flaw =
    | Unparseable
    | MissingActor
    | PrevHashNotText
    | TargetNotObject
    | TargetIncomplete
    | MalformedKey
    | BadSignature
    | PrevHashMismatch
    | WitnessNotDispatching
    | WrongSuccessor

  datatype Verified = Hops(hops: seq<Hop>) | EmptyChain | Flawed(index: nat, flaw: Flaw)

  datatype Parsed = Good(hop: Hop) | Bad(flaw: Flaw)

  ghost predicate Injective(hash: Token -> Digest) {
    forall a, b :: hash(a) == hash(b) ==> a == b
  }

  // ---- reading one token -------------------------------------------------------------------

  function ParseHop(p: Payload): Parsed {
    if p.actor.NoActor? then Bad(MissingActor)
    else if p.prev.PrevNotText? then Bad(PrevHashNotText)
    else if p.dispatch.DispatchNotObject? then Bad(TargetNotObject)
    else if p.dispatch.DispatchIncomplete? then Bad(TargetIncomplete)
    else Good(Hop(p.actor.text,
                  if p.prev.Prev? then Some(p.prev.digest) else None,
                  if p.dispatch.Dispatch? then Some(p.dispatch.target) else None))
  }

  /** A token on its own: it parses, names a key, and that key signed it. */
  function Read(token: Token): Parsed {
    if token.Garbage? then Bad(Unparseable)
    else
      var parsed := ParseHop(token.payload);
      if parsed.Bad? then parsed
      else if parsed.hop.actor.NotAKey? then Bad(MalformedKey)
      else if token.signedBy != Some(parsed.hop.actor.key) || !token.admissible then Bad(BadSignature)
      else parsed
  }

  /** Who may sign after a hop: anyone after an ordinary one; after a dispatch, the party
      it named, or its own witness if it dispatches again. */
  predicate MaySucceed(previous: Hop, hop: Hop) {
    || previous.dispatchedTo.None?
    || hop.actor == previous.dispatchedTo.value.providerKey
    || (hop.actor == previous.actor && hop.dispatchedTo.Some?)
  }

  /** The hash a hop must carry, given the token before it. */
  function LinkTo(hash: Token -> Digest, previous: Option<Token>): Option<Digest> {
    match previous
    case None => None
    case Some(token) => Some(hash(token))
  }

  function Before(chain: seq<Token>, i: nat): Option<Token>
    requires i < |chain|
  {
    if i == 0 then None else Some(chain[i - 1])
  }

  /** What an accepted chain is, said at once. */
  ghost predicate Accepted(hash: Token -> Digest, chain: seq<Token>) {
    && chain != []
    && (forall i :: 0 <= i < |chain| ==> Read(chain[i]).Good?)
    && (forall i :: 0 <= i < |chain| ==>
          Read(chain[i]).hop.prevHash == LinkTo(hash, Before(chain, i)))
    && (forall i :: 0 < i < |chain| ==> MaySucceed(Read(chain[i - 1]).hop, Read(chain[i]).hop))
  }

  ghost function HopsOf(chain: seq<Token>): seq<Hop>
    requires forall i :: 0 <= i < |chain| ==> Read(chain[i]).Good?
  {
    seq(|chain|, i requires 0 <= i < |chain| => Read(chain[i]).hop)
  }

  /** What is wrong with one hop, given the one before it. */
  function FlawAfter(hash: Token -> Digest, previous: Option<Token>, token: Token): Option<Flaw> {
    var parsed := Read(token);
    if parsed.Bad? then Some(parsed.flaw)
    else if parsed.hop.prevHash != LinkTo(hash, previous) then Some(PrevHashMismatch)
    else if previous.Some? && Read(previous.value).Good? && !MaySucceed(Read(previous.value).hop, parsed.hop) then
      Some(if parsed.hop.actor == Read(previous.value).hop.actor then WitnessNotDispatching else WrongSuccessor)
    else None
  }

  function FlawAt(hash: Token -> Digest, chain: seq<Token>, i: nat): Option<Flaw>
    requires i < |chain|
  {
    FlawAfter(hash, Before(chain, i), chain[i])
  }

  // ---- verifying ---------------------------------------------------------------------------------

  /** Accepts exactly the accepted chains, returning their hops in order; otherwise names
      the first hop that is wrong and what is wrong with it. */
  method VerifyChain(hash: Token -> Digest, chain: seq<Token>) returns (result: Verified)
    ensures result.Hops? <==> Accepted(hash, chain)
    ensures result.Hops? ==> result.hops == HopsOf(chain)
    ensures result.EmptyChain? <==> chain == []
    ensures result.Flawed? ==>
              && result.index < |chain|
              && FlawAt(hash, chain, result.index) == Some(result.flaw)
              && (result.index > 0 ==> Accepted(hash, chain[..result.index]))
  {
    hide Accepted;
    if chain == [] { EmptyIsRefused(hash); return EmptyChain; }
    var hops: seq<Hop> := [];
    var prevToken: Option<Token> := None;
    var previous: Option<Hop> := None;
    var i := 0;
    while i < |chain|
      invariant i <= |chain| && |hops| == i
      invariant prevToken == if i == 0 then None else Some(chain[i - 1])
      invariant previous == if i == 0 then None else Some(hops[i - 1])
      invariant i > 0 ==> Accepted(hash, chain[..i])
      invariant forall j :: 0 <= j < i ==> Read(chain[j]) == Good(hops[j])
    {
      var token := chain[i];
      if FlawAt(hash, chain, i).Some? { FlawsAreRefused(hash, chain, i); }
      if token.Garbage? { return Flawed(i, Unparseable); }
      var parsed := ParseHop(token.payload);
      if parsed.Bad? { return Flawed(i, parsed.flaw); }
      var hop := parsed.hop;
      if hop.actor.NotAKey? { return Flawed(i, MalformedKey); }
      if token.signedBy != Some(hop.actor.key) || !token.admissible { return Flawed(i, BadSignature); }
      if hop.prevHash != LinkTo(hash, prevToken) { return Flawed(i, PrevHashMismatch); }
      if previous.Some? && previous.value.dispatchedTo.Some? {
        if hop.actor == previous.value.dispatchedTo.value.providerKey {
        } else if hop.actor == previous.value.actor {
          if hop.dispatchedTo.None? { return Flawed(i, WitnessNotDispatching); }
        } else {
          return Flawed(i, WrongSuccessor);
        }
      }
      LongerPrefix(hash, chain, i);
      hops := hops + [hop];
      prevToken, previous := Some(token), Some(hop);
      i := i + 1;
    }
    assert chain[..i] == chain;
    return Hops(hops);
  }

  lemma EmptyIsRefused(hash: Token -> Digest)
    ensures !Accepted(hash, [])
  {
  }

  lemma FlawsAreRefused(hash: Token -> Digest, chain: seq<Token>, i: nat)
    requires i < |chain| && FlawAt(hash, chain, i).Some?
    ensures !Accepted(hash, chain)
  {
  }

  /** Everything a prefix's hops must be, at one of them. */
  ghost predicate Fine(hash: Token -> Digest, chain: seq<Token>, i: nat)
    requires i < |chain|
  {
    && Read(chain[i]).Good? && Read(chain[i]).hop.prevHash == LinkTo(hash, Before(chain, i))
    && (i > 0 ==> Read(chain[i - 1]).Good? && MaySucceed(Read(chain[i - 1]).hop, Read(chain[i]).hop))
  }

  lemma AllFineIsAccepted(hash: Token -> Digest, chain: seq<Token>)
    ensures Accepted(hash, chain) <==> chain != [] && forall i :: 0 <= i < |chain| ==> Fine(hash, chain, i)
  {
    if chain != [] && forall i :: 0 <= i < |chain| ==> Fine(hash, chain, i) {
      forall i | 0 <= i < |chain|
        ensures Read(chain[i]).Good? && Read(chain[i]).hop.prevHash == LinkTo(hash, Before(chain, i))
        ensures i > 0 ==> Read(chain[i - 1]).Good? && MaySucceed(Read(chain[i - 1]).hop, Read(chain[i]).hop)
      {
        assert Fine(hash, chain, i);
      }
    }
  }

  lemma FineInBoth(hash: Token -> Digest, a: seq<Token>, b: seq<Token>, i: nat)
    requires i < |a| && i < |b| && a[i] == b[i] && (i > 0 ==> a[i - 1] == b[i - 1])
    ensures Fine(hash, a, i) <==> Fine(hash, b, i)
  {
    assert Before(a, i) == Before(b, i);
  }

  lemma LongerPrefix(hash: Token -> Digest, chain: seq<Token>, i: nat)
    requires i < |chain| && (i > 0 ==> Accepted(hash, chain[..i]))
    requires FlawAt(hash, chain, i).None?
    ensures Accepted(hash, chain[..i + 1])
  {
    hide Accepted;
    var longer := chain[..i + 1];
    AllFineIsAccepted(hash, chain[..i]);
    AllFineIsAccepted(hash, longer);
    assert Fine(hash, chain, i) by {
      if i > 0 { assert Fine(hash, chain[..i], i - 1) && chain[..i][i - 1] == chain[i - 1]; }
    }
    hide Fine;
    forall j | 0 <= j < |longer| ensures Fine(hash, longer, j) {
      if j < i { FineInBoth(hash, longer, chain[..i], j); } else { FineInBoth(hash, longer, chain, i); }
    }
  }
}
