/** What an accepted chain proves, and which chains the builders can make. */
module ChainTheorems {
  import opened Vocabulary
  import opened Chain

  // ---- a chain is fixed by its tail -------------------------------------------------------

  lemma AcceptedAt(hash: Token -> Digest, chain: seq<Token>, i: nat)
    requires Accepted(hash, chain) && i < |chain|
    ensures Read(chain[i]).Good? && Read(chain[i]).hop.prevHash == LinkTo(hash, Before(chain, i))
    ensures i > 0 ==> Read(chain[i - 1]).Good? && MaySucceed(Read(chain[i - 1]).hop, Read(chain[i]).hop)
  {
  }

  /** A token two accepted chains share stands at the same place in both, and
      everything before it is the same. */
  lemma {:induction false} SharedTokenSharedPast(hash: Token -> Digest, a: seq<Token>, i: nat, b: seq<Token>, j: nat)
    requires Injective(hash) && Accepted(hash, a) && Accepted(hash, b)
    requires i < |a| && j < |b| && a[i] == b[j]
    ensures i == j && a[..i + 1] == b[..j + 1]
    decreases i
  {
    hide Accepted;
    AcceptedAt(hash, a, i);
    AcceptedAt(hash, b, j);
    assert LinkTo(hash, Before(a, i)) == LinkTo(hash, Before(b, j));
    if i > 0 {
      assert j > 0;
      assert hash(a[i - 1]) == hash(b[j - 1]);
      SharedTokenSharedPast(hash, a, i - 1, b, j - 1);
      assert a[..i + 1] == a[..i] + [a[i]] && b[..j + 1] == b[..j] + [b[j]];
    }
  }

  /** Two accepted chains that end in the same token are the same chain. */
  lemma ChainIsFixedByItsTail(hash: Token -> Digest, a: seq<Token>, b: seq<Token>)
    requires Injective(hash) && Accepted(hash, a) && Accepted(hash, b)
    requires a != [] && b != [] && a[|a| - 1] == b[|b| - 1]
    ensures a == b
  {
    hide Accepted, Injective;
    SharedTokenSharedPast(hash, a, |a| - 1, b, |b| - 1);
    assert a[..|a|] == a && b[..|b|] == b;
  }

  /** Of the tokens of an accepted chain, the only accepted chains that can be made are
      its own prefixes: nothing can be left out, repeated or put in another order. */
  lemma OnlyPrefixesSurvive(hash: Token -> Digest, chain: seq<Token>, other: seq<Token>)
    requires Injective(hash) && Accepted(hash, chain) && other != []
    requires forall i :: 0 <= i < |other| ==> other[i] in chain
    ensures Accepted(hash, other) <==> other <= chain
  {
    hide Accepted, Injective;
    if Accepted(hash, other) {
      var last := other[|other| - 1];
      assert last in chain;
      var i :| 0 <= i < |chain| && chain[i] == last;
      SharedTokenSharedPast(hash, chain, i, other, |other| - 1);
      assert other[..|other|] == other;
      assert chain[..i + 1] == other;
    }
    if other <= chain {
      PrefixIsAccepted(hash, chain, |other|);
      assert chain[..|other|] == other;
    }
  }

  lemma PrefixIsAccepted(hash: Token -> Digest, chain: seq<Token>, n: nat)
    requires Accepted(hash, chain) && 0 < n <= |chain|
    ensures Accepted(hash, chain[..n])
  {
    var p := chain[..n];
    forall i | 0 <= i < n
      ensures Read(p[i]).Good? && Read(p[i]).hop.prevHash == LinkTo(hash, Before(p, i))
      ensures i > 0 ==> MaySucceed(Read(p[i - 1]).hop, Read(p[i]).hop)
    {
      assert Before(p, i) == Before(chain, i);
    }
  }

  /** A chain that lost its beginning is refused at its first hop, for its link. */
  lemma LosingTheHeadIsCaught(hash: Token -> Digest, chain: seq<Token>, n: nat)
    requires Accepted(hash, chain) && 0 < n < |chain|
    ensures !Accepted(hash, chain[n..]) && FlawAt(hash, chain[n..], 0) == Some(PrevHashMismatch)
  {
    AcceptedAt(hash, chain, n);
    assert chain[n..][0] == chain[n];
    FlawsAreRefused(hash, chain[n..], 0);
  }

  /** Every hop was signed by the key it names. */
  lemma NobodySignsForAnother(hash: Token -> Digest, chain: seq<Token>, i: nat)
    requires Accepted(hash, chain) && i < |chain|
    ensures HopsOf(chain)[i].actor.Spelled? && chain[i].Signed? && chain[i].signedBy == Some(HopsOf(chain)[i].actor.key)
  {
    AcceptedAt(hash, chain, i);
  }

  /** A token stands on its own exactly when it is a token at all, each claim it makes is of
      the right kind, its actor is a key, that key signed it, and the decoder admits it; and
      then its hop is what it claims. */
  lemma TokenReadsExactlyWhen(token: Token)
    ensures Read(token).Good? <==>
              && token.Signed? && token.admissible
              && token.payload.actor.Actor? && token.payload.actor.text.Spelled?
              && token.signedBy == Some(token.payload.actor.text.key)
              && !token.payload.prev.PrevNotText?
              && (token.payload.dispatch.NoDispatch? || token.payload.dispatch.Dispatch?)
    ensures Read(token).Good? ==>
              var hop := Read(token).hop;
              && hop.actor == token.payload.actor.text
              && hop.prevHash == (if token.payload.prev.Prev? then Some(token.payload.prev.digest) else None)
              && hop.dispatchedTo
                 == (if token.payload.dispatch.Dispatch? then Some(token.payload.dispatch.target) else None)
  {
  }

  /** One token nobody signed for, or that the decoder turns away, spoils every chain it is in. */
  lemma InadmissibleSpoilsTheChain(hash: Token -> Digest, chain: seq<Token>, i: nat)
    requires i < |chain| && chain[i].Signed?
    requires !chain[i].admissible
             || (ParseHop(chain[i].payload).Good? && ParseHop(chain[i].payload).hop.actor.Spelled?
                 && chain[i].signedBy != Some(ParseHop(chain[i].payload).hop.actor.key))
    ensures !Accepted(hash, chain)
  {
    TokenReadsExactlyWhen(chain[i]);
    if Accepted(hash, chain) { AcceptedAt(hash, chain, i); }
  }

  // ---- building ---------------------------------------------------------------------------------

  function TextOf(k: Key): KeyText {
    Spelled(k, 0)
  }

  function SignHop(hash: Token -> Digest, k: Key, prev: Option<Token>, target: Option<DispatchTarget>): Token {
    Signed(Payload(Actor(TextOf(k)),
                   if prev.Some? then Prev(hash(prev.value)) else NoPrev,
                   if target.Some? then Dispatch(target.value) else NoDispatch),
           Some(k), true)
  }

  function NewChain(hash: Token -> Digest, k: Key): seq<Token> {
    [SignHop(hash, k, None, None)]
  }

  /** Neither builder continues an empty chain. */
  function ExtendChain(hash: Token -> Digest, k: Key, chain: seq<Token>): Option<seq<Token>> {
    if chain == [] then None else Some(chain + [SignHop(hash, k, Some(chain[|chain| - 1]), None)])
  }

  function DispatchHop(hash: Token -> Digest, k: Key, chain: seq<Token>, target: DispatchTarget): Option<seq<Token>> {
    if chain == [] then None else Some(chain + [SignHop(hash, k, Some(chain[|chain| - 1]), Some(target))])
  }

  lemma SignedHopReads(hash: Token -> Digest, k: Key, prev: Option<Token>, target: Option<DispatchTarget>)
    ensures Read(SignHop(hash, k, prev, target)) == Good(Hop(TextOf(k), LinkTo(hash, prev), target))
  {
  }

  /** One more token: accepted exactly when the chain was, the token reads, links to the
      last one, and its signer may follow it. */
  lemma OneMoreHop(hash: Token -> Digest, chain: seq<Token>, token: Token)
    requires chain != []
    ensures Accepted(hash, chain + [token]) <==>
              && Accepted(hash, chain) && Read(token).Good?
              && Read(token).hop.prevHash == Some(hash(chain[|chain| - 1]))
              && MaySucceed(Read(chain[|chain| - 1]).hop, Read(token).hop)
  {
    var n := |chain|;
    var longer := chain + [token];
    assert longer[..n] == chain && longer[..n + 1] == longer;
    assert Before(longer, n) == Some(chain[n - 1]);
    if Accepted(hash, longer) {
      PrefixIsAccepted(hash, longer, n);
      AcceptedAt(hash, longer, n);
    }
    if && Accepted(hash, chain) && Read(token).Good?
       && Read(token).hop.prevHash == Some(hash(chain[n - 1]))
       && MaySucceed(Read(chain[n - 1]).hop, Read(token).hop)
    {
      assert FlawAt(hash, longer, n).None?;
      LongerPrefix(hash, longer, n);
    }
  }

  lemma NewChainIsAccepted(hash: Token -> Digest, k: Key)
    ensures Accepted(hash, NewChain(hash, k)) && HopsOf(NewChain(hash, k)) == [Hop(TextOf(k), None, None)]
  {
    SignedHopReads(hash, k, None, None);
  }

  ghost function LastHop(chain: seq<Token>): Hop
    requires chain != [] && Read(chain[|chain| - 1]).Good?
  {
    Read(chain[|chain| - 1]).hop
  }

  /** `k` can extend a chain exactly when its last hop is not a dispatch, or names `k`. */
  lemma ExtendAcceptedExactlyWhen(hash: Token -> Digest, k: Key, chain: seq<Token>)
    requires Accepted(hash, chain)
    ensures var last := LastHop(chain);
            Accepted(hash, ExtendChain(hash, k, chain).value) <==>
              last.dispatchedTo.None? || last.dispatchedTo.value.providerKey == TextOf(k)
  {
    SignedHopReads(hash, k, Some(chain[|chain| - 1]), None);
    OneMoreHop(hash, chain, SignHop(hash, k, Some(chain[|chain| - 1]), None));
  }

  /** `k` can dispatch from a chain exactly when its last hop is not a dispatch, names
      `k`, or was signed by `k`. */
  lemma DispatchAcceptedExactlyWhen(hash: Token -> Digest, k: Key, chain: seq<Token>, target: DispatchTarget)
    requires Accepted(hash, chain)
    ensures var last := LastHop(chain);
            Accepted(hash, DispatchHop(hash, k, chain, target).value) <==>
              || last.dispatchedTo.None? || last.dispatchedTo.value.providerKey == TextOf(k)
              || last.actor == TextOf(k)
  {
    SignedHopReads(hash, k, Some(chain[|chain| - 1]), Some(target));
    OneMoreHop(hash, chain, SignHop(hash, k, Some(chain[|chain| - 1]), Some(target)));
  }

  // ---- what follows a dispatch ------------------------------------------------------------------------

  /** Hops `i..m` are all dispatches by the witness that signed hop `i`. */
  ghost predicate SameWitness(hops: seq<Hop>, i: nat, m: nat) {
    i <= m < |hops| && forall j :: i <= j <= m ==> hops[j].dispatchedTo.Some? && hops[j].actor == hops[i].actor
  }

  ghost predicate TakenUp(hops: seq<Hop>, m: nat) {
    m + 1 < |hops| && hops[m].dispatchedTo.Some? && hops[m + 1].actor == hops[m].dispatchedTo.value.providerKey
  }

  lemma {:induction false} Redispatches(hops: seq<Hop>, i: nat) returns (m: nat)
    requires forall j :: 0 < j < |hops| ==> MaySucceed(hops[j - 1], hops[j])
    requires i < |hops| && hops[i].dispatchedTo.Some?
    ensures SameWitness(hops, i, m) && (m + 1 == |hops| || TakenUp(hops, m))
    decreases |hops| - i
  {
    if i + 1 == |hops| || TakenUp(hops, i) {
      m := i;
    } else {
      assert MaySucceed(hops[i], hops[i + 1]);
      m := Redispatches(hops, i + 1);
    }
  }

  /** After a dispatch come re-dispatches by the same witness, and then the party the
      last of them named, or the chain ends. */
  lemma AfterADispatch(hash: Token -> Digest, chain: seq<Token>, i: nat)
    requires Accepted(hash, chain) && i < |chain| && HopsOf(chain)[i].dispatchedTo.Some?
    ensures exists m: nat :: SameWitness(HopsOf(chain), i, m) && (m + 1 == |chain| || TakenUp(HopsOf(chain), m))
  {
    var hops := HopsOf(chain);
    forall j | 0 < j < |hops| ensures MaySucceed(hops[j - 1], hops[j]) {
      AcceptedAt(hash, chain, j);
    }
    var m := Redispatches(hops, i);
  }

  // ---- the chains that can be built are the chains that are accepted --------------------------------------

  /** One act of building: who signs, and to whom they dispatch if they do. */
  datatype Move = Move(signer: Key, target: Option<DispatchTarget>)

  function Build(hash: Token -> Digest, first: Key, moves: seq<Move>): (chain: seq<Token>)
    ensures |chain| == |moves| + 1
  {
    if moves == [] then NewChain(hash, first)
    else
      var n := |moves| - 1;
      var chain := Build(hash, first, moves[..n]);
      chain + [SignHop(hash, moves[n].signer, Some(chain[n]), moves[n].target)]
  }

  predicate MayMove(before: Move, next: Move) {
    || before.target.None?
    || before.target.value.providerKey == TextOf(next.signer)
    || (before.signer == next.signer && next.target.Some?)
  }

  /** The rule of succession on the acts alone: no hash and no signature in sight. */
  predicate Lawful(moves: seq<Move>) {
    forall i :: 0 < i < |moves| ==> MayMove(moves[i - 1], moves[i])
  }

  lemma {:induction false} BuildLast(hash: Token -> Digest, first: Key, moves: seq<Move>)
    ensures var chain := Build(hash, first, moves);
            var last := if moves == [] then Move(first, None) else moves[|moves| - 1];
            Read(chain[|moves|]).Good? && Read(chain[|moves|]).hop.actor == TextOf(last.signer)
            && Read(chain[|moves|]).hop.dispatchedTo == last.target
  {
    if moves == [] {
      SignedHopReads(hash, first, None, None);
    } else {
      var n := |moves| - 1;
      SignedHopReads(hash, moves[n].signer, Some(Build(hash, first, moves[..n])[n]), moves[n].target);
    }
  }

  /** What is built is accepted exactly when every act was lawful. */
  lemma {:induction false} BuiltAcceptedExactlyWhenLawful(hash: Token -> Digest, first: Key, moves: seq<Move>)
    ensures Accepted(hash, Build(hash, first, moves)) <==> Lawful(moves)
    decreases |moves|
  {
    if moves == [] {
      NewChainIsAccepted(hash, first);
    } else {
      var n := |moves| - 1;
      var shorter := moves[..n];
      var chain := Build(hash, first, shorter);
      BuiltAcceptedExactlyWhenLawful(hash, first, shorter);
      BuildLast(hash, first, shorter);
      SignedHopReads(hash, moves[n].signer, Some(chain[n]), moves[n].target);
      OneMoreHop(hash, chain, SignHop(hash, moves[n].signer, Some(chain[n]), moves[n].target));
      LawfulStep(moves);
    }
  }

  lemma LawfulStep(moves: seq<Move>)
    requires moves != []
    ensures var n := |moves| - 1;
            Lawful(moves) <==> Lawful(moves[..n]) && (n == 0 || MayMove(moves[n - 1], moves[n]))
  {
    var n := |moves| - 1;
    if Lawful(moves[..n]) && (n == 0 || MayMove(moves[n - 1], moves[n])) {
      forall i | 0 < i < |moves| ensures MayMove(moves[i - 1], moves[i]) {
        if i < n { assert MayMove(moves[..n][i - 1], moves[..n][i]); }
      }
    }
    if Lawful(moves) {
      forall i | 0 < i < n ensures MayMove(moves[..n][i - 1], moves[..n][i]) {
        assert MayMove(moves[i - 1], moves[i]);
      }
    }
  }

  /** Made by `sign_hop`, whatever it was linked to. */
  ghost predicate Honest(hash: Token -> Digest, token: Token) {
    exists k, prev, target :: token == SignHop(hash, k, prev, target)
  }

  /** The last token of an accepted chain was signed by somebody for the token before it. */
  lemma HonestLast(hash: Token -> Digest, chain: seq<Token>) returns (k: Key, target: Option<DispatchTarget>)
    requires Injective(hash) && Accepted(hash, chain) && chain != [] && Honest(hash, chain[|chain| - 1])
    ensures chain[|chain| - 1] == SignHop(hash, k, Before(chain, |chain| - 1), target)
    ensures Read(chain[|chain| - 1]).Good? && Read(chain[|chain| - 1]).hop.dispatchedTo == target
  {
    var n := |chain| - 1;
    AcceptedAt(hash, chain, n);
    hide Accepted;
    var prev;
    k, prev, target :| chain[n] == SignHop(hash, k, prev, target);
    SignedHopReads(hash, k, prev, target);
    hide SignHop, Read;
    SameLink(hash, prev, Before(chain, n));
  }

  lemma SameLink(hash: Token -> Digest, a: Option<Token>, b: Option<Token>)
    requires Injective(hash) && LinkTo(hash, a) == LinkTo(hash, b)
    ensures a == b
  {
    if a.Some? && b.Some? { assert hash(a.value) == hash(b.value); }
  }

  /** An accepted chain of honestly signed tokens that does not open with a dispatch was
      built, act by lawful act, by the builders. */
  lemma {:induction false} AcceptedChainsAreBuilt(hash: Token -> Digest, chain: seq<Token>)
      returns (first: Key, moves: seq<Move>)
    requires Injective(hash) && Accepted(hash, chain) && chain != []
    requires forall i :: 0 <= i < |chain| ==> Honest(hash, chain[i])
    requires Read(chain[0]).Good? && Read(chain[0]).hop.dispatchedTo.None?
    ensures chain == Build(hash, first, moves) && Lawful(moves)
    decreases |chain|
  {
    hide Accepted, Injective, Honest, Read, SignHop, Lawful;
    var n := |chain| - 1;
    var k, target := HonestLast(hash, chain);
    if n == 0 {
      first, moves := k, [];
      assert chain == [chain[0]];
    } else {
      PrefixIsAccepted(hash, chain, n);
      assert chain[..n][0] == chain[0];
      var moves';
      first, moves' := AcceptedChainsAreBuilt(hash, chain[..n]);
      moves := moves' + [Move(k, target)];
      assert moves[..|moves'|] == moves' && |moves'| == n - 1;
      assert chain[..n][n - 1] == chain[n - 1];
      assert chain == chain[..n] + [chain[n]];
    }
    BuiltAcceptedExactlyWhenLawful(hash, first, moves);
  }
}
