/** A goto cleanup chain, the way both loopback programs are written: a
    series of calls, each of which may fail; a call that fails jumps to the
    cleanup of the calls before it, and a call that succeeded is undone, in
    reverse order, once everything after it has run. */
module Cleanup {
  import opened Common
  import opened Trace

  /** One call of a chain: the call, whether it succeeded, and the calls that
      undo it at cleanup. */
  datatype Stage = Stage(call: Event, ok: bool, undo: seq<Event>)

  datatype Chain = End | Link(stage: Stage, next: Chain)

  /** The calls a chain makes, in order. */
  function Calls(c: Chain): seq<Event>
  {
    match c
    case End => []
    case Link(stage, next) =>
      if stage.ok then [stage.call] + Calls(next) + stage.undo else [stage.call]
  }

  /** A call that fails acquires nothing; one that succeeds either acquires
      nothing and needs no undoing, or acquires one resource that its undo
      call releases. */
  predicate ProperStage(stage: Stage)
  {
    match EffectOf(stage.call)
    case Neutral => !stage.ok || stage.undo == []
    case Acquire(r) => stage.ok && |stage.undo| == 1 && EffectOf(stage.undo[0]) == Release(r)
    case Release(_) => false
  }

  predicate Proper(c: Chain)
  {
    match c
    case End => true
    case Link(stage, next) => ProperStage(stage) && Proper(next)
  }

  /** The resources the chain acquires, in order: those of the calls that
      succeeded up to the first one that failed. */
  function Acquired(c: Chain): seq<Resource>
  {
    match c
    case End => []
    case Link(stage, next) =>
      if !stage.ok then []
      else (if EffectOf(stage.call).Acquire? then [EffectOf(stage.call).r] else []) + Acquired(next)
  }

  /** The cleanup discipline: a proper chain releases every resource it
      acquired, each exactly when everything acquired after it has been
      released. */
  lemma {:induction false} ChainNests(c: Chain)
    requires Proper(c)
    ensures Nested(Effects(Calls(c))) && Acquires(Effects(Calls(c))) == Acquired(c)
  {
    match c
    case End =>
      NestedEmpty();
    case Link(stage, next) =>
      if !stage.ok {
        EffectsOne(stage.call);
        NestedNeutral();
      } else {
        ChainNests(next);
        match EffectOf(stage.call)
        case Neutral =>
          Prefix(stage.call, Calls(next));
          assert Calls(c) == [stage.call] + Calls(next);
        case Acquire(r) =>
          Bracket(r, stage.call, Calls(next), stage.undo[0]);
          assert stage.undo == [stage.undo[0]];
      }
  }

  /** `p` holds of every call the chain makes: the call of each stage up to
      the first one that fails, and the undo calls of the stages that
      succeeded. */
  predicate Along(c: Chain, p: Event -> bool)
  {
    match c
    case End => true
    case Link(stage, next) =>
      p(stage.call) && (stage.ok ==> (forall e | e in stage.undo :: p(e)) && Along(next, p))
  }

  lemma {:induction false} CallsAlong(c: Chain, p: Event -> bool)
    requires Along(c, p)
    ensures forall e | e in Calls(c) :: p(e)
  {
    match c
    case End =>
    case Link(stage, next) =>
      if stage.ok {
        CallsAlong(next, p);
      }
  }
}
