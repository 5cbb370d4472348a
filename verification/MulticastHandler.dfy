/** The handler of reliable multicast (code/alephbft/rmc/src/handler.rs), and what it amounts to over any
    sequence of inputs. */
module MulticastHandler {
  import opened Options
  import opened Multisignatures

  /** What another node sends; nothing in it has been checked. */
  datatype Message =
    | SignedHash(hash: Hash, index: NodeIndex, signature: Signature)
    | MultisignedHash(hash: Hash, multisignature: SignatureSet)

  datatype Error = BadSignature | BadMultisignature

  datatype Multisigned = Multisigned(hash: Hash, signature: SignatureSet)

  datatype Result = Ok(value: Option<Multisigned>) | Err(error: Error)

  datatype OnStartRmcResponse = SignedResponse(message: Message) | MultisignedResponse(multisigned: Multisigned) | Noop

  type States = map<Hash, PartiallyMultisigned>

  predicate IsDone(states: States, h: Hash) { h in states && states[h].Complete? }

  /** The state of h with one more valid signature. */
  function WithSignature(k: Keychain, states: States, h: Hash, i: NodeIndex, s: Signature): PartiallyMultisigned
    requires i < k.count && (h in states ==> |states[h].signature| == k.count)
  {
    if h in states then AddSignature(states[h], k, h, i, s) else IntoPartiallyMultisigned(k, h, i, s)
  }

  predicate StatesOk(k: Keychain, states: States) {
    forall h <- states :: states[h].hash == h && (states[h].Incomplete? ==> |states[h].signature| == k.count)
  }

  class Handler {
    const keychain: Keychain
    var hashStates: States

    ghost predicate Valid()
      reads this
    {
      keychain.Sound() && StatesOk(keychain, hashStates)
    }

    constructor (k: Keychain)
      requires k.Sound()
      ensures keychain == k && hashStates == map[] && Valid()
    {
      keychain, hashStates := k, map[];
    }

    method OnStartRmc(h: Hash) returns (r: OnStartRmcResponse)
      requires Valid()
      modifies this
      ensures Valid()
      ensures (hashStates, r.MultisignedResponse?)
              == old((Next(keychain, hashStates, Start(h)), Returns(keychain, hashStates, Start(h))))
      ensures r.MultisignedResponse? ==> r.multisigned == Multisigned(h, hashStates[h].signature)
      ensures r == Noop <==> old(IsDone(hashStates, h))
      ensures r.SignedResponse? ==> r.message == SignedHash(h, keychain.index, keychain.sign(h))
    {
      var signature := keychain.sign(h);
      var completed := AlreadyCompleted(h);
      if completed {
        return Noop;
      }
      var multisigned := HandleSignedHash(h, keychain.index, signature);
      if multisigned.Some? {
        return MultisignedResponse(multisigned.value);
      }
      r := SignedResponse(SignedHash(h, keychain.index, signature));
    }

    method OnSignedHash(h: Hash, i: NodeIndex, s: Signature) returns (r: Result)
      requires Valid()
      modifies this
      ensures Valid() && hashStates == old(Next(keychain, hashStates, Receive(SignedHash(h, i, s))))
      ensures r == Err(BadSignature) <==> !keychain.verify(h, s, i)
      ensures (r.Ok? && r.value.Some?) <==> old(Returns(keychain, hashStates, Receive(SignedHash(h, i, s))))
      ensures r.Ok? && r.value.Some? ==> r.value.value == Multisigned(h, hashStates[h].signature)
      ensures r.Err? ==> r.error == BadSignature
    {
      if !keychain.verify(h, s, i) {
        return Err(BadSignature);
      }
      var completed := AlreadyCompleted(h);
      if completed {
        return Ok(None);
      }
      var multisigned := HandleSignedHash(h, i, s);
      r := Ok(multisigned);
    }

    method HandleSignedHash(h: Hash, i: NodeIndex, s: Signature) returns (r: Option<Multisigned>)
      requires Valid() && keychain.verify(h, s, i) && !IsDone(hashStates, h)
      modifies this
      ensures Valid() && hashStates == old(hashStates[h := WithSignature(keychain, hashStates, h, i, s)])
      ensures r == if hashStates[h].Complete? then Some(Multisigned(h, hashStates[h].signature)) else None
    {
      var newState: PartiallyMultisigned;
      if h in hashStates {
        var partial := hashStates[h];
        hashStates := hashStates - {h};
        newState := AddSignature(partial, keychain, h, i, s);
      } else {
        newState := IntoPartiallyMultisigned(keychain, h, i, s);
      }
      hashStates := hashStates[h := newState];
      r := if newState.Complete? then Some(Multisigned(h, newState.signature)) else None;
    }

    method OnMultisignedHash(h: Hash, m: SignatureSet) returns (r: Result)
      requires Valid()
      modifies this
      ensures Valid() && hashStates == old(Next(keychain, hashStates, Receive(MultisignedHash(h, m))))
      ensures r == Err(BadMultisignature) <==> !old(IsDone(hashStates, h)) && !IsComplete(keychain, h, m)
      ensures (r.Ok? && r.value.Some?) <==> old(Returns(keychain, hashStates, Receive(MultisignedHash(h, m))))
      ensures r.Ok? && r.value.Some? ==> r.value.value == Multisigned(h, m)
      ensures r.Err? ==> r.error == BadMultisignature
    {
      var completed := AlreadyCompleted(h);
      if completed {
        return Ok(None);
      }
      if !IsComplete(keychain, h, m) {
        return Err(BadMultisignature);
      }
      hashStates := hashStates[h := Complete(h, m)];
      r := Ok(Some(Multisigned(h, m)));
    }

    method AlreadyCompleted(h: Hash) returns (r: bool)
      ensures r == IsDone(hashStates, h)
    {
      r := h in hashStates && hashStates[h].Complete?;
    }
  }

  // Any sequence of inputs.

  datatype Input = Start(hash: Hash) | Receive(message: Message)

  /** The states after one input. */
  function Next(k: Keychain, states: States, input: Input): States
    requires k.Sound() && StatesOk(k, states)
  {
    match input
    case Start(h) =>
      if IsDone(states, h) then states else states[h := WithSignature(k, states, h, k.index, k.sign(h))]
    case Receive(SignedHash(h, i, s)) =>
      if !k.verify(h, s, i) || IsDone(states, h) then states else states[h := WithSignature(k, states, h, i, s)]
    case Receive(MultisignedHash(h, m)) =>
      if IsDone(states, h) || !IsComplete(k, h, m) then states else states[h := Complete(h, m)]
  }

  function HashOf(input: Input): Hash { if input.Start? then input.hash else input.message.hash }

  /** Whether the input makes its hash complete; it is then returned. */
  predicate Returns(k: Keychain, states: States, input: Input)
    requires k.Sound() && StatesOk(k, states)
  {
    !IsDone(states, HashOf(input)) && IsDone(Next(k, states, input), HashOf(input))
  }
}
