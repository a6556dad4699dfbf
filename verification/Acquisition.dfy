/**
 One artifact acquisition over an ordered list of sources (Acquire): the official
 source first, then mirrors, each attempt in a staging directory of its own.
 */
module Acquisition {
  import opened Options

  datatype Route = Official | Mirror | Local | Invalid(text: string)

  datatype FailureKind =
    Reachability | NotFound | Authentication | Authorization | Integrity | Semantic | Canceled | LocalIO

  datatype Identity = Identity(kind: string, name: string, details: seq<string>)

  datatype Request = Request(operationId: string, identity: Identity, candidates: seq<Route>, rootUsable: bool)

  /** Error of an adapter: a context error, a Failure (its kind may be blank), or anything else. */
  datatype AdapterError = ContextError | Classified(kind: Option<FailureKind>) | Unclassified

  datatype Outcome = Obtained(identity: Identity, payload: string) | Errored(error: AdapterError)

  /** Everything the world decides about the attempt with one index. */
  datatype Turn = Turn(
    canceledBefore: bool,
    stageCreated: bool,
    outcome: Outcome,
    canceledDuring: bool,
    stageRemoved: bool)

  datatype Attempt = Attempt(route: Route, failure: Option<FailureKind>)

  datatype Ending = Won(index: nat, payload: string) | Lost(kind: FailureKind) | Exhausted

  datatype Answer = Answer(attempts: seq<Attempt>, ending: Ending, leftover: set<nat>)

  /** White space, as Go's TrimSpace removes it. */
  predicate IsSpace(c: char) {
    || '\t' <= c <= '\r' || c in {' ', '\U{0085}', '\U{00A0}', '\U{1680}', '\U{2028}', '\U{2029}', '\U{202F}', '\U{205F}', '\U{3000}'}
    || '\U{2000}' <= c <= '\U{200A}'
  }

  predicate Blank(s: string) {
    forall i | 0 <= i < |s| :: IsSpace(s[i])
  }

  lemma VisibleIsNotBlank(s: string)
    ensures (exists i :: 0 <= i < |s| && '!' <= s[i] <= '~') ==> !Blank(s)
    ensures (forall i | 0 <= i < |s| :: s[i] == ' ' || s[i] == '\t') ==> Blank(s)
  {
  }

  predicate HasEligibleMirror(candidates: seq<Route>, start: nat) {
    start < |candidates| && candidates[start] == Mirror
  }

  function ClassifyFailure(turn: Turn, error: AdapterError): FailureKind {
    if error.ContextError? || turn.canceledDuring then Canceled
    else if error.Classified? then (if error.kind.None? then Semantic else error.kind.value)
    else Semantic
  }

  function Resolved(asked: Identity, got: Identity): Identity {
    if got.kind == "" then asked else got
  }

  /** The acquisition from attempt `i` on; stage directories are named by attempt. */
  function AcquireFrom(request: Request, world: nat -> Turn, i: nat): Answer
    decreases |request.candidates| - i
  {
    if i >= |request.candidates| then Answer([], Exhausted, {}) else
      var turn, route := world(i), request.candidates[i];
      if turn.canceledBefore then Answer([], Lost(Canceled), {})
      else if !turn.stageCreated then Answer([], Lost(LocalIO), {})
      else if turn.outcome.Obtained? then
        if Resolved(request.identity, turn.outcome.identity) != request.identity
        then Answer([Attempt(route, Some(Integrity))], Lost(Integrity), if turn.stageRemoved then {} else {i})
        else Answer([Attempt(route, None)], Won(i, turn.outcome.payload), {i})
      else
        var kind := ClassifyFailure(turn, turn.outcome.error);
        var failed := Attempt(route, Some(kind));
        if !turn.stageRemoved then Answer([failed], Lost(LocalIO), {i})
        else if kind == Reachability && HasEligibleMirror(request.candidates, i + 1) then
          Prepend([failed], AcquireFrom(request, world, i + 1))
        else Answer([failed], Lost(kind), {})
  }

  /** Attempts made so far, and then what is still to come. */
  function Prepend(attempts: seq<Attempt>, rest: Answer): Answer {
    rest.(attempts := attempts + rest.attempts)
  }

  lemma PrependTwice(a: seq<Attempt>, b: seq<Attempt>, rest: Answer)
    ensures Prepend(a, Prepend(b, rest)) == Prepend(a + b, rest)
  {
    assert a + (b + rest.attempts) == a + b + rest.attempts;
  }

  /** validateRequest; None when the request is acceptable. */
  method ValidateRequest(request: Request) returns (failure: Option<FailureKind>)
    ensures failure.None? <==> Acceptable(request)
  {
    if Blank(request.operationId) || request.identity.kind == "" || Blank(request.identity.name) {
      return Some(Semantic);
    }
    if !request.rootUsable {
      return Some(LocalIO);
    }
    if |request.candidates| == 0 || request.candidates[0] != Official {
      return Some(Semantic);
    }
    for i := 0 to |request.candidates|
      invariant forall j | 0 <= j < i :: !request.candidates[j].Invalid?
    {
      if request.candidates[i].Invalid? {
        return Some(Semantic);
      }
      if request.candidates[i] == Mirror && i == 0 {
        return Some(Semantic);
      }
    }
    return None;
  }

  ghost predicate Acceptable(request: Request) {
    && !Blank(request.operationId) && request.identity.kind != "" && !Blank(request.identity.name)
    && request.rootUsable
    && |request.candidates| > 0 && request.candidates[0] == Official
    && forall i | 0 <= i < |request.candidates| :: !request.candidates[i].Invalid?
  }

  // ----- What an acquisition does --------------------------------------------------------

  /** Attempt k used source i + k; all but the last failed to reach it, and all but the first were mirrors. */
  ghost predicate FallsBack(request: Request, i: nat, attempts: seq<Attempt>) {
    && i + |attempts| <= |request.candidates|
    && (forall k | 0 <= k < |attempts| :: attempts[k].route == request.candidates[i + k])
    && (forall k | 0 <= k < |attempts| - 1 :: attempts[k].failure == Some(Reachability))
    && (forall k | 0 < k < |attempts| :: attempts[k].route == Mirror)
  }

  lemma FallsBackOnce(request: Request, i: nat, failed: Attempt, rest: seq<Attempt>)
    requires i + 1 < |request.candidates| && request.candidates[i + 1] == Mirror
    requires failed == Attempt(request.candidates[i], Some(Reachability)) && FallsBack(request, i + 1, rest)
    ensures FallsBack(request, i, [failed] + rest)
  {
    var all := [failed] + rest;
    assert forall k | 1 <= k < |all| :: all[k] == rest[k - 1];
  }

  lemma {:induction false} FallbackShape(request: Request, world: nat -> Turn, i: nat)
    requires i < |request.candidates|
    ensures
      var a := AcquireFrom(request, world, i);
      && FallsBack(request, i, a.attempts)
      && !a.ending.Exhausted?
      && (a.ending.Won? ==> a.attempts != [] && a.ending.index == i + |a.attempts| - 1
                            && a.attempts[|a.attempts| - 1].failure.None?)
      && (!a.ending.Won? ==> forall k | 0 <= k < |a.attempts| :: a.attempts[k].failure.Some?)
    decreases |request.candidates| - i
  {
    if i + 1 < |request.candidates| {
      FallbackShape(request, world, i + 1);
      if request.candidates[i + 1] == Mirror {
        FallsBackOnce(request, i, Attempt(request.candidates[i], Some(Reachability)), AcquireFrom(request, world, i + 1).attempts);
      }
    }
  }

  lemma {:induction false} OnlyTheWinnerStays(request: Request, world: nat -> Turn, i: nat)
    requires i < |request.candidates|
    requires forall k | i <= k < |request.candidates| :: world(k).stageRemoved
    ensures
      var a := AcquireFrom(request, world, i);
      a.leftover == if a.ending.Won? then {a.ending.index} else {}
    decreases |request.candidates| - i
  {
    if i + 1 < |request.candidates| {
      OnlyTheWinnerStays(request, world, i + 1);
    }
  }

  /**
   Every accepted acquisition: the official source first, then only consecutive mirrors, each
   attempt but the last a reachability failure; a local source is never tried, the list is
   never exhausted, and with working removals exactly the returned stage remains.
   */
  lemma AcquisitionShape(request: Request, world: nat -> Turn)
    requires Acceptable(request)
    ensures
      var a := AcquireFrom(request, world, 0);
      && FallsBack(request, 0, a.attempts)
      && (a.attempts != [] ==> a.attempts[0].route == Official)
      && (forall k | 0 <= k < |a.attempts| :: a.attempts[k].route != Local)
      && !a.ending.Exhausted?
      && ((forall k | 0 <= k < |request.candidates| :: world(k).stageRemoved) ==>
            a.leftover == if a.ending.Won? then {a.ending.index} else {})
  {
    FallbackShape(request, world, 0);
    if forall k | 0 <= k < |request.candidates| :: world(k).stageRemoved {
      OnlyTheWinnerStays(request, world, 0);
    }
  }

  /** After a terminal failure no further source is tried. */
  lemma TerminalFailureStops(request: Request, world: nat -> Turn, k: nat)
    requires Acceptable(request)
    requires k < |AcquireFrom(request, world, 0).attempts|
    requires AcquireFrom(request, world, 0).attempts[k].failure != Some(Reachability)
    ensures k == |AcquireFrom(request, world, 0).attempts| - 1
  {
    FallbackShape(request, world, 0);
  }

  // ----- Who wins, and how an acquisition fails -----------------------------------------------

  /** The adapter obtained the artifact asked for, or one it did not name. */
  predicate ObtainsArtifact(request: Request, turn: Turn) {
    turn.outcome.Obtained? && (turn.outcome.identity.kind == "" || turn.outcome.identity == request.identity)
  }

  predicate Begins(turn: Turn) {
    !turn.canceledBefore && turn.stageCreated
  }

  /** How an adapter's error counts. */
  ghost predicate CountsAs(turn: Turn, kind: FailureKind) {
    turn.outcome.Errored? &&
    if turn.canceledDuring || turn.outcome.error == ContextError then kind == Canceled
    else if turn.outcome.error.Classified? && turn.outcome.error.kind.Some? then turn.outcome.error == Classified(Some(kind))
    else kind == Semantic
  }

  /** The source could not be reached, and its stage was cleaned up. */
  ghost predicate PassedOver(turn: Turn) {
    Begins(turn) && CountsAs(turn, Reachability) && turn.stageRemoved
  }

  /** All sources from `i` to before `k` were passed over, and those after `i` up to `k` are mirrors. */
  ghost predicate Reached(request: Request, world: nat -> Turn, i: nat, k: nat) {
    && i <= k < |request.candidates|
    && (forall j | i <= j < k :: PassedOver(world(j)))
    && (forall j | i < j <= k :: request.candidates[j] == Mirror)
  }

  /** How the acquisition ends at a source it has reached, if it ends there. */
  ghost predicate EndsWith(request: Request, world: nat -> Turn, k: nat, ending: Ending)
    requires k < |request.candidates|
  {
    var turn := world(k);
    if turn.canceledBefore then ending == Lost(Canceled)
    else if !turn.stageCreated then ending == Lost(LocalIO)
    else if turn.outcome.Obtained? then
      ending == if ObtainsArtifact(request, turn) then Won(k, turn.outcome.payload) else Lost(Integrity)
    else if !turn.stageRemoved then ending == Lost(LocalIO)
    else
      ending.Lost? && CountsAs(turn, ending.kind)
      && !(ending.kind == Reachability && k + 1 < |request.candidates| && request.candidates[k + 1] == Mirror)
  }

  lemma {:induction false} EndsWhereReached(request: Request, world: nat -> Turn, i: nat, k: nat, ending: Ending)
    requires Reached(request, world, i, k) && EndsWith(request, world, k, ending)
    ensures AcquireFrom(request, world, i).ending == ending
    decreases k - i
  {
    if i < k {
      assert PassedOver(world(i)) && request.candidates[i + 1] == Mirror;
      EndsWhereReached(request, world, i + 1, k, ending);
    }
  }

  /** The stages left at the end: the winner's, or one that could not be removed. */
  function LeftBehind(request: Request, turn: Turn, k: nat): set<nat> {
    if Begins(turn) && (ObtainsArtifact(request, turn) || !turn.stageRemoved) then {k} else {}
  }

  /** It does end at a source that it reaches. */
  lemma {:induction false} SomewhereEnds(request: Request, world: nat -> Turn, i: nat) returns (k: nat)
    requires i < |request.candidates|
    ensures Reached(request, world, i, k) && EndsWith(request, world, k, AcquireFrom(request, world, i).ending)
    ensures AcquireFrom(request, world, i).leftover == LeftBehind(request, world(k), k)
    decreases |request.candidates| - i
  {
    k := i;
    if PassedOver(world(i)) && HasEligibleMirror(request.candidates, i + 1) {
      k := SomewhereEnds(request, world, i + 1);
    }
  }

  /**
   The exact outcome of every accepted acquisition: it ends in this way if and only if at some
   source all sources before it were passed over, it and all others after the first are mirrors,
   and this is what happens there.
   */
  lemma EndsIff(request: Request, world: nat -> Turn, ending: Ending)
    requires Acceptable(request)
    ensures AcquireFrom(request, world, 0).ending == ending <==>
      exists k :: Reached(request, world, 0, k) && EndsWith(request, world, k, ending)
  {
    var k := SomewhereEnds(request, world, 0);
    forall m | Reached(request, world, 0, m) && EndsWith(request, world, m, ending)
      ensures AcquireFrom(request, world, 0).ending == ending
    {
      EndsWhereReached(request, world, 0, m, ending);
    }
  }

  /** A source wins if and only if it is reached, its attempt begins, and it yields the artifact. */
  lemma WinsIff(request: Request, world: nat -> Turn, k: nat, payload: string)
    requires Acceptable(request)
    ensures AcquireFrom(request, world, 0).ending == Won(k, payload) <==>
      && Reached(request, world, 0, k) && Begins(world(k)) && ObtainsArtifact(request, world(k))
      && payload == world(k).outcome.payload
  {
    EndsIff(request, world, Won(k, payload));
    if Reached(request, world, 0, k) && Begins(world(k)) && ObtainsArtifact(request, world(k)) {
      assert EndsWith(request, world, k, Won(k, world(k).outcome.payload));
    }
  }

  /** What is recorded of the attempt at source `i + k`. */
  ghost predicate Recorded(request: Request, turn: Turn, failure: Option<FailureKind>) {
    if turn.outcome.Errored? then failure.Some? && CountsAs(turn, failure.value)
    else if ObtainsArtifact(request, turn) then failure == None
    else failure == Some(Integrity)
  }

  /** Every source that was reached and began has its attempt recorded, and no other. */
  lemma {:induction false} AttemptsRecorded(request: Request, world: nat -> Turn, i: nat, k: nat)
    requires i + k < |request.candidates|
    ensures
      var attempts := AcquireFrom(request, world, i).attempts;
      && (k < |attempts| <==> Reached(request, world, i, i + k) && Begins(world(i + k)))
      && (k < |attempts| ==> Recorded(request, world(i + k), attempts[k].failure))
    decreases k
  {
    if k > 0 {
      var goesOn := PassedOver(world(i)) && HasEligibleMirror(request.candidates, i + 1);
      AttemptsRecorded(request, world, i + 1, k - 1);
      assert Reached(request, world, i, i + k) <==> goesOn && Reached(request, world, i + 1, i + k) by {
        if Reached(request, world, i, i + k) {
          assert PassedOver(world(i)) && request.candidates[i + 1] == Mirror;
        }
      }
    }
  }

  // ----- The loop --------------------------------------------------------------------------

  datatype Result = Rejected(kind: FailureKind) | Finished(attempts: seq<Attempt>, ending: Ending, fallbackUsed: bool)

  class Staging {
    var stages: set<nat>

    constructor ()
      ensures stages == {}
    {
      stages := {};
    }

    method Acquire(request: Request, world: nat -> Turn) returns (result: Result)
      requires stages == {}
      modifies this
      ensures result.Rejected? <==> !Acceptable(request)
      ensures result.Rejected? ==> stages == {}
      ensures result.Finished? ==>
        var a := AcquireFrom(request, world, 0);
        && result.attempts == a.attempts && result.ending == a.ending && stages == a.leftover
        && (result.fallbackUsed <==> a.ending.Won? && a.ending.index > 0)
      ensures result.Finished? ==>
        exists k :: Reached(request, world, 0, k) && EndsWith(request, world, k, result.ending) && stages == LeftBehind(request, world(k), k)
    {
      var invalid := ValidateRequest(request);
      if invalid.Some? {
        return Rejected(invalid.value);
      }
      var attempts: seq<Attempt> := [];
      ghost var whole := AcquireFrom(request, world, 0);
      FallbackShape(request, world, 0);
      ghost var last := SomewhereEnds(request, world, 0);
      for index := 0 to |request.candidates|
        invariant stages == {}
        invariant whole == Prepend(attempts, AcquireFrom(request, world, index))
        invariant 0 < index < |request.candidates| ==> request.candidates[index] == Mirror
      {
        var made, ending := TryOnce(request, world, index);
        PrependTwice(attempts, made, if ending.Some? then Answer([], ending.value, stages) else AcquireFrom(request, world, index + 1));
        attempts := attempts + made;
        if ending.Some? {
          return Finished(attempts, ending.value, ending.value.Won? && request.candidates[index] == Mirror);
        }
      }
      return Finished(attempts, Exhausted, false);
    }

    /** One round of the loop: the attempt it records, and the ending unless the loop goes on. */
    method TryOnce(request: Request, world: nat -> Turn, index: nat) returns (made: seq<Attempt>, ending: Option<Ending>)
      requires stages == {} && index < |request.candidates|
      modifies this
      ensures ending.Some? ==> AcquireFrom(request, world, index) == Prepend(made, Answer([], ending.value, stages))
      ensures ending.Some? && ending.value.Won? ==> ending.value.index == index
      ensures ending.None? ==> stages == {} && HasEligibleMirror(request.candidates, index + 1)
      ensures ending.None? ==>
        AcquireFrom(request, world, index) == Prepend(made, AcquireFrom(request, world, index + 1))
    {
      var turn, route := world(index), request.candidates[index];
      if turn.canceledBefore {
        return [], Some(Lost(Canceled));
      }
      if !turn.stageCreated {
        return [], Some(Lost(LocalIO));
      }
      stages := stages + {index};
      match turn.outcome {
        case Obtained(identity, payload) =>
          if Resolved(request.identity, identity) != request.identity {
            RemoveStage(index, turn.stageRemoved);
            return [Attempt(route, Some(Integrity))], Some(Lost(Integrity));
          }
          return [Attempt(route, None)], Some(Won(index, payload));
        case Errored(error) =>
          var kind := ClassifyFailure(turn, error);
          made := [Attempt(route, Some(kind))];
          RemoveStage(index, turn.stageRemoved);
          if !turn.stageRemoved {
            return made, Some(Lost(LocalIO));
          }
          if kind == Reachability && HasEligibleMirror(request.candidates, index + 1) {
            return made, None;
          }
          return made, Some(Lost(kind));
      }
    }

    method RemoveStage(stage: nat, works: bool)
      modifies this
      ensures stages == if works then old(stages) - {stage} else old(stages)
    {
      if works {
        stages := stages - {stage};
      }
    }
  }
}
