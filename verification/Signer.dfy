/** The file-backed private validator: it signs at most one message for every height,
    round and step, whatever it is asked and whenever it is restarted. */
module Signer {
  import opened Collections

  const STEP_NONE := 0
  const STEP_PROPOSE := 1
  const STEP_PREVOTE := 2
  const STEP_PRECOMMIT := 3

  datatype Kind = PrevoteType | PrecommitType | UnknownType

  datatype Vote = Vote(kind: Kind, height: int, round: int, blockID: int, timestamp: int)

  datatype Proposal = Proposal(height: int, round: int, polRound: int, blockID: int, timestamp: int)

  /** The canonical message that is signed; its encoding is taken to be one to one. */
  datatype SignBytes =
    | CanonicalVote(chainID: int, kind: Kind, height: int, round: int, blockID: int, timestamp: int)
    | CanonicalProposal(chainID: int, height: int, round: int, polRound: int, blockID: int, timestamp: int)

  type Signature = int

  datatype HRS = HRS(height: int, round: int, step: int)

  predicate Less(a: HRS, b: HRS) {
    || a.height < b.height
    || (a.height == b.height && (a.round < b.round || (a.round == b.round && a.step < b.step)))
  }

  datatype SignState = SignState(hrs: HRS, signBytes: Option<SignBytes>, signature: Option<Signature>)

  function VoteToStep(kind: Kind): int
    requires kind != UnknownType
  {
    if kind == PrevoteType then STEP_PREVOTE else STEP_PRECOMMIT
  }

  function VoteSignBytes(chainID: int, v: Vote): SignBytes {
    CanonicalVote(chainID, v.kind, v.height, v.round, v.blockID, v.timestamp)
  }

  function ProposalSignBytes(chainID: int, p: Proposal): SignBytes {
    CanonicalProposal(chainID, p.height, p.round, p.polRound, p.blockID, p.timestamp)
  }

  datatype HRSCheck = Regression | NoSignBytes | NoSignature | SameHRS | Fresh

  function CheckHRS(s: SignState, hrs: HRS): HRSCheck {
    if s.hrs.height > hrs.height then Regression
    else if s.hrs.height == hrs.height then
      if s.hrs.round > hrs.round then Regression
      else if s.hrs.round == hrs.round then
        if s.hrs.step > hrs.step then Regression
        else if s.hrs.step == hrs.step then
          if s.signBytes.None? then NoSignBytes else if s.signature.None? then NoSignature else SameHRS
        else Fresh
      else Fresh
    else Fresh
  }

  /** Comparison is by the lexicographic order on height, round and step. */
  lemma CheckHRSOrders(s: SignState, hrs: HRS)
    ensures CheckHRS(s, hrs).Fresh? <==> Less(s.hrs, hrs)
    ensures CheckHRS(s, hrs).Regression? <==> Less(hrs, s.hrs)
    ensures s.hrs == hrs <==> !Less(s.hrs, hrs) && !Less(hrs, s.hrs)
  {
  }

  /** checkVotesOnlyDifferByTimestamp and its twin for proposals: the earlier timestamp, if
      the two are otherwise equal. Bytes of another kind do not decode. */
  function OnlyDifferByTimestamp(last: SignBytes, now: SignBytes): Option<int>
    requires last.CanonicalVote? == now.CanonicalVote?
  {
    if now.(timestamp := last.timestamp) == last then Some(last.timestamp) else None
  }

  // ------------------------------------------------------------------------ messages

  /** What the signer is asked to sign, for a chain. */
  datatype Message = VoteMessage(chainID: int, vote: Vote) | ProposalMessage(chainID: int, proposal: Proposal)

  function Bytes(m: Message): SignBytes {
    match m
    case VoteMessage(chainID, vote) => VoteSignBytes(chainID, vote)
    case ProposalMessage(chainID, proposal) => ProposalSignBytes(chainID, proposal)
  }

  /** Different messages have different bytes. */
  lemma BytesDiffer(m: Message, m': Message)
    ensures Bytes(m) == Bytes(m') ==> m == m'
  {
  }

  /** Proposals come before prevotes, and those before precommits. */
  function Position(m: Message): HRS {
    match m
    case ProposalMessage(_, p) => HRS(p.height, p.round, 1)
    case VoteMessage(_, v) =>
      HRS(v.height, v.round, match v.kind case PrevoteType => 2 case PrecommitType => 3 case UnknownType => 0)
  }

  /** The two agree in everything but the time. */
  predicate OnlyTimeDiffers(m: Message, m': Message) {
    match (m, m')
    case (VoteMessage(c, v), VoteMessage(c', v')) =>
      c == c' && v.kind == v'.kind && v.height == v'.height && v.round == v'.round && v.blockID == v'.blockID
    case (ProposalMessage(c, p), ProposalMessage(c', p')) =>
      && c == c' && p.height == p'.height && p.round == p'.round
      && p.polRound == p'.polRound && p.blockID == p'.blockID
    case _ => false
  }

  /** The signer sees from the bytes whether only the time differs. */
  lemma SeesTime(last: Message, now: Message)
    requires last.VoteMessage? == now.VoteMessage?
    ensures OnlyDifferByTimestamp(Bytes(last), Bytes(now)).Some? <==> OnlyTimeDiffers(last, now)
    ensures OnlyTimeDiffers(last, now) ==>
      OnlyDifferByTimestamp(Bytes(last), Bytes(now)) ==
        Some(if last.VoteMessage? then last.vote.timestamp else last.proposal.timestamp)
  {
  }

  // ------------------------------------------------------------------------ histories

  /** A message handed out with its signature. */
  datatype Release = Release(message: Message, signature: Signature)

  ghost predicate Ascending(signed: seq<Message>) {
    forall i, j | 0 <= i < j < |signed| :: Less(Position(signed[i]), Position(signed[j]))
  }

  /** Two votes handed out for one height, round and type agree in chain, block, time and
      signature, and so do two proposals for one height and round, in the round of their
      polka as well. */
  ghost predicate NoDoubleSign(released: seq<Release>) {
    forall i, j | 0 <= i < |released| && 0 <= j < |released| :: Compatible(released[i], released[j])
  }

  predicate Compatible(a: Release, b: Release) {
    match (a.message, b.message)
    case (VoteMessage(c, v), VoteMessage(c', v')) =>
      v.height == v'.height && v.round == v'.round && v.kind == v'.kind ==>
        c == c' && v.blockID == v'.blockID && v.timestamp == v'.timestamp && a.signature == b.signature
    case (ProposalMessage(c, p), ProposalMessage(c', p')) =>
      p.height == p'.height && p.round == p'.round ==>
        && c == c' && p.polRound == p'.polRound && p.blockID == p'.blockID
        && p.timestamp == p'.timestamp && a.signature == b.signature
    case _ => true
  }

  /** What the sign state says about everything signed and handed out so far. */
  ghost predicate SignStateOK(s: SignState, signed: seq<Message>, released: seq<Release>,
                              sign: SignBytes -> Option<Signature>)
  {
    && (if signed == [] then s == SignState(HRS(0, 0, STEP_NONE), None, None) && released == []
        else
          var last := signed[|signed| - 1];
          && s.signBytes == Some(Bytes(last)) && s.hrs == Position(last)
          && s.signature.Some? && sign(Bytes(last)) == s.signature)
    && Ascending(signed)
    && (forall m | m in signed :: Position(m).step > 0 && Less(HRS(0, 0, STEP_NONE), Position(m)))
    && (forall r | r in released :: r.message in signed && sign(Bytes(r.message)) == Some(r.signature))
  }

  lemma ReleasedOnce(s: SignState, signed: seq<Message>, released: seq<Release>, sign: SignBytes -> Option<Signature>)
    requires SignStateOK(s, signed, released, sign)
    ensures NoDoubleSign(released)
  {
    forall i, j | 0 <= i < |released| && 0 <= j < |released| ensures Compatible(released[i], released[j]) {
      assert released[i] in released && released[j] in released;
      var a :| 0 <= a < |signed| && signed[a] == released[i].message;
      var b :| 0 <= b < |signed| && signed[b] == released[j].message;
      assert a < b ==> Less(Position(signed[a]), Position(signed[b]));
      assert b < a ==> Less(Position(signed[b]), Position(signed[a]));
    }
  }

  lemma SignedNew(s: SignState, signed: seq<Message>, released: seq<Release>, sign: SignBytes -> Option<Signature>,
                  m: Message)
    requires SignStateOK(s, signed, released, sign) && Less(s.hrs, Position(m)) && sign(Bytes(m)).Some?
    requires Position(m).step > 0
    ensures SignStateOK(SignState(Position(m), Some(Bytes(m)), sign(Bytes(m))), signed + [m], released, sign)
  {
  }

  lemma ReleaseLast(s: SignState, signed: seq<Message>, released: seq<Release>, sign: SignBytes -> Option<Signature>)
    requires SignStateOK(s, signed, released, sign) && signed != []
    ensures SignStateOK(s, signed, released + [Release(signed[|signed| - 1], s.signature.value)], sign)
  {
  }

  // ------------------------------------------------------------------------ the signer

  datatype Fate = Survives | DiesBeforeSave | DiesAfterSave

  datatype Refusal = HRSRegression | MissingSignBytes | ConflictingData | SigningFailed

  datatype Outcome<+M> = Signed(message: M, signature: Signature) | Refused(reason: Refusal) | Panicked | Died

  /** What becomes of a request to sign `m`, when `last` was signed last: one for an earlier
      position is refused; one for the same position gets the last message and signature, if
      only the time differs, and is refused if anything else does; and one for a later
      position is signed, unless the key cannot or the process dies. */
  ghost predicate Answered<M>(m: Message, s: SignState, signed: seq<Message>, fate: Fate,
                              sign: SignBytes -> Option<Signature>, r: Outcome<M>, answer: Option<Message>)
  {
    if Less(Position(m), s.hrs) then r == Refused(HRSRegression) && answer.None?
    else if signed != [] && Position(m) == Position(signed[|signed| - 1]) then
      var last := signed[|signed| - 1];
      if OnlyTimeDiffers(last, m) then r.Signed? && answer == Some(last) && Some(r.signature) == s.signature
      else r == Refused(ConflictingData) && answer.None?
    else if sign(Bytes(m)).None? then r == Refused(SigningFailed) && answer.None?
    else if fate.Survives? then r.Signed? && answer == Some(m) && Some(r.signature) == sign(Bytes(m))
    else r.Died? && answer.None?
  }

  /** What has been signed then. */
  ghost function SignedAfter(m: Message, s: SignState, signed: seq<Message>, fate: Fate,
                             sign: SignBytes -> Option<Signature>): seq<Message> {
    if Less(s.hrs, Position(m)) && sign(Bytes(m)).Some? && !fate.DiesBeforeSave? then signed + [m] else signed
  }

  datatype Request =
    | VoteRequest(chainID: int, vote: Vote, fate: Fate)
    | ProposalRequest(chainID: int, proposal: Proposal, fate: Fate)
    | Restart

  class FilePV {
    const sign: SignBytes -> Option<Signature>
    var state: SignState
    var file: SignState
    ghost var signed: seq<Message>
    ghost var released: seq<Release>

    /** The file is up to date; the memory is too, unless the process died. */
    ghost predicate Recoverable() reads this {
      SignStateOK(file, signed, released, sign)
    }

    ghost predicate Valid() reads this {
      Recoverable() && state == file
    }

    constructor(sign: SignBytes -> Option<Signature>)
      ensures this.sign == sign && Valid() && signed == [] && released == []
    {
      this.sign := sign;
      state := SignState(HRS(0, 0, STEP_NONE), None, None);
      file := SignState(HRS(0, 0, STEP_NONE), None, None);
      signed, released := [], [];
    }

    method LoadFilePV()
      requires Recoverable()
      modifies `state
      ensures Valid()
    {
      state := file;
    }

    /** Returns whether the process lives to hand out the signature. */
    method SaveSigned(hrs: HRS, signBytes: SignBytes, signature: Signature, fate: Fate, ghost m: Message)
      returns (alive: bool)
      requires Valid() && Less(state.hrs, hrs) && hrs == Position(m) && hrs.step > 0
      requires signBytes == Bytes(m) && sign(signBytes) == Some(signature)
      modifies this
      ensures Recoverable() && released == old(released) && alive == fate.Survives?
      ensures signed == if fate.DiesBeforeSave? then old(signed) else old(signed) + [m]
      ensures alive ==> Valid()
    {
      SignedNew(state, signed, released, sign, m);
      state := SignState(hrs, Some(signBytes), Some(signature));
      if fate.DiesBeforeSave? { return false; }
      file := state;
      signed := signed + [m];
      alive := fate.Survives?;
    }

    /** Signs a vote, or hands out again the one signed for the same height, round and type,
        with the time it was signed with. */
    method SignVote(chainID: int, vote: Vote, fate: Fate) returns (r: Outcome<Vote>)
      requires Valid()
      modifies this
      ensures Recoverable() && (!r.Died? ==> Valid())
      ensures r.Panicked? <==> vote.kind == UnknownType
      ensures vote.kind != UnknownType ==>
        Answered(VoteMessage(chainID, vote), old(state), old(signed), fate, sign, r,
                 if r.Signed? then Some(VoteMessage(chainID, r.message)) else None)
      ensures vote.kind != UnknownType ==>
        signed == SignedAfter(VoteMessage(chainID, vote), old(state), old(signed), fate, sign)
      ensures r.Signed? ==>
        && sign(VoteSignBytes(chainID, r.message)) == Some(r.signature)
        && released == old(released) + [Release(VoteMessage(chainID, r.message), r.signature)]
      ensures !r.Signed? ==> released == old(released)
      ensures vote.kind == UnknownType ==> released == old(released) && signed == old(signed)
    {
      if vote.kind == UnknownType { return Panicked; }
      ghost var m := VoteMessage(chainID, vote);
      var hrs := HRS(vote.height, vote.round, VoteToStep(vote.kind));
      var signBytes := VoteSignBytes(chainID, vote);
      CheckHRSOrders(state, hrs);
      StoredLast(state, signed, released, sign);
      match CheckHRS(state, hrs) {
        case Regression => return Refused(HRSRegression);
        case NoSignBytes => return Refused(MissingSignBytes);
        case NoSignature => return Panicked;
        case SameHRS =>
          ghost var last := signed[|signed| - 1];
          SeesTime(last, m);
          BytesDiffer(last, m);
          if signBytes == state.signBytes.value {
            r := Signed(vote, state.signature.value);
          } else {
            var t := OnlyDifferByTimestamp(state.signBytes.value, signBytes);
            if t.None? { return Refused(ConflictingData); }
            r := Signed(vote.(timestamp := t.value), state.signature.value);
          }
          assert VoteMessage(chainID, r.message) == last;
          ReleaseLast(state, signed, released, sign);
          released := released + [Release(VoteMessage(chainID, r.message), r.signature)];
        case Fresh =>
          var signature := sign(signBytes);
          if signature.None? { return Refused(SigningFailed); }
          var alive := SaveSigned(hrs, signBytes, signature.value, fate, m);
          if !alive { return Died; }
          r := Signed(vote, signature.value);
          ReleaseLast(state, signed, released, sign);
          released := released + [Release(m, signature.value)];
      }
    }

    /** The same for proposals. */
    method SignProposal(chainID: int, proposal: Proposal, fate: Fate) returns (r: Outcome<Proposal>)
      requires Valid()
      modifies this
      ensures Recoverable() && (!r.Died? ==> Valid())
      ensures !r.Panicked?
      ensures Answered(ProposalMessage(chainID, proposal), old(state), old(signed), fate, sign, r,
                 if r.Signed? then Some(ProposalMessage(chainID, r.message)) else None)
      ensures signed == SignedAfter(ProposalMessage(chainID, proposal), old(state), old(signed), fate, sign)
      ensures r.Signed? ==>
        && sign(ProposalSignBytes(chainID, r.message)) == Some(r.signature)
        && released == old(released) + [Release(ProposalMessage(chainID, r.message), r.signature)]
      ensures !r.Signed? ==> released == old(released)
    {
      ghost var m := ProposalMessage(chainID, proposal);
      var hrs := HRS(proposal.height, proposal.round, STEP_PROPOSE);
      var signBytes := ProposalSignBytes(chainID, proposal);
      CheckHRSOrders(state, hrs);
      StoredLast(state, signed, released, sign);
      match CheckHRS(state, hrs) {
        case Regression => return Refused(HRSRegression);
        case NoSignBytes => return Refused(MissingSignBytes);
        case NoSignature => return Panicked;
        case SameHRS =>
          ghost var last := signed[|signed| - 1];
          SeesTime(last, m);
          BytesDiffer(last, m);
          if signBytes == state.signBytes.value {
            r := Signed(proposal, state.signature.value);
          } else {
            var t := OnlyDifferByTimestamp(state.signBytes.value, signBytes);
            if t.None? { return Refused(ConflictingData); }
            r := Signed(proposal.(timestamp := t.value), state.signature.value);
          }
          assert ProposalMessage(chainID, r.message) == last;
          ReleaseLast(state, signed, released, sign);
          released := released + [Release(ProposalMessage(chainID, r.message), r.signature)];
        case Fresh =>
          var signature := sign(signBytes);
          if signature.None? { return Refused(SigningFailed); }
          var alive := SaveSigned(hrs, signBytes, signature.value, fate, m);
          if !alive { return Died; }
          r := Signed(proposal, signature.value);
          ReleaseLast(state, signed, released, sign);
          released := released + [Release(m, signature.value)];
      }
    }

    /** Any sequence of requests, crashes and restarts: newly signed messages strictly
        increase in height, round and step, and what is handed out never contradicts what
        was handed out before. */
    method Live(requests: seq<Request>)
      requires Valid()
      modifies this
      ensures Valid() && Ascending(signed) && NoDoubleSign(released)
      ensures old(released) <= released
    {
      for i := 0 to |requests|
        invariant Valid() && old(released) <= released
      {
        match requests[i]
        case VoteRequest(chainID, vote, fate) =>
          var r := SignVote(chainID, vote, fate);
          if r.Died? || r.Panicked? { LoadFilePV(); }
        case ProposalRequest(chainID, proposal, fate) =>
          var r := SignProposal(chainID, proposal, fate);
          if r.Died? { LoadFilePV(); }
        case Restart =>
          LoadFilePV();
      }
      ReleasedOnce(state, signed, released, sign);
    }
  }

  /** The state holds the last message signed, of the kind its step says, so that its bytes
      can be decoded for comparison. */
  lemma StoredLast(s: SignState, signed: seq<Message>, released: seq<Release>, sign: SignBytes -> Option<Signature>)
    requires SignStateOK(s, signed, released, sign)
    ensures s.signBytes.None? <==> signed == []
    ensures s.signBytes.Some? <==> s.signature.Some?
    ensures signed == [] <==> s.hrs.step == STEP_NONE
    ensures signed != [] ==>
      var last := signed[|signed| - 1];
      && s.hrs == Position(last) && s.signBytes == Some(Bytes(last))
      && (last.ProposalMessage? <==> s.hrs.step == STEP_PROPOSE)
      && (last.VoteMessage? && last.vote.kind == PrevoteType <==> s.hrs.step == STEP_PREVOTE)
  {
    if signed != [] {
      assert signed[|signed| - 1] in signed;
    }
  }
}
