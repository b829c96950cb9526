/** One jQuery Deferred: its three callback lists, made and used as its constructor does. */
module Deferred {
  import opened CallbackSpec
  import opened CallbackScope
  import opened DeferredSpec

  predicate Prepared(w: World, r: World, k: nat) {
    r == Do(w, Add(k, Builtins(k)))
  }

  /** Put the state setter, the disabler of the other list and the lock of the third one in front. */
  method Prepare(scope: Scope, k: nat)
    requires scope.Valid() && k < |scope.lists| && !scope.crashed
    modifies scope
    ensures scope.Valid() && |scope.lists| == old(|scope.lists|)
    ensures Prepared(old(scope.world), scope.world, k)
  {
    var fs := [Setter(Outcome(k)), Disabler(Other(k)), Locker(2)];
    FlatFunctions(fs);
    scope.Add(k, Functions(fs));
  }

  method PreparedScope() returns (scope: Scope)
    ensures fresh(scope) && scope.Valid()
    ensures MadeFrom(Start(LISTS), scope.world)
  {
    scope := new Scope(LISTS);
    Prepare(scope, 0);
    Prepare(scope, 1);
  }

  ghost predicate MadeFrom(w: World, r: World) {
    exists half :: Prepared(w, half, 0) && Prepared(half, r, 1)
  }

  lemma {:induction false} MadeFresh(w: World)
    requires MadeFrom(Start(LISTS), w)
    ensures w == Fresh() && Stable(w, Open)
  {
    FreshStable();
  }

  class Deferred {
    const scope: Scope
    ghost var phase: Phase

    ghost predicate Valid()
      reads this, scope
    {
      scope.Valid() && Stable(scope.world, phase)
    }

    constructor ()
      ensures Valid() && fresh(scope)
      ensures phase == Open && scope.world == Fresh()
    {
      var made := PreparedScope();
      scope := made;
      phase := Open;
      new;
      MadeFresh(scope.world);
    }

    /** Any call of the public face: `done`, `fail` and `progress` add to list 0, 1 and 2; `resolve`,
        `reject` and `notify` fire them.  `scripts` is what user callbacks do meanwhile. */
    method Call(op: Op, scripts: seq<Script>)
      requires Valid() && UserOp(op) && op.on < 3 && UserScripts(scripts)
      modifies this, scope
      ensures Valid() && scope.world == Take(old(scope.world), Turn(op, scripts))
      ensures Later(old(phase), phase)
      ensures old(phase).Open? && op.FireWith? && op.on < 2 ==>
                phase.Closed? && phase.k == op.on && phase.v == op.args
    {
      phase := TakeStable(scope.world, Turn(op, scripts), phase);
      scope.Supply(scripts);
      match op
      case Add(i, fs) =>
        FlatFunctions(fs);
        scope.Add(i, Functions(fs));
      case FireWith(i, a) => scope.FireWith(i, a);
    }

    method Resolve(a: Args, scripts: seq<Script>)
      requires Valid() && UserScripts(scripts)
      modifies this, scope
      ensures Valid() && phase.Closed?
      ensures if old(phase).Closed? then phase == old(phase) else phase.k == 0 && phase.v == a
    {
      Call(CallbackSpec.FireWith(0, a), scripts);
    }

    method Reject(a: Args, scripts: seq<Script>)
      requires Valid() && UserScripts(scripts)
      modifies this, scope
      ensures Valid() && phase.Closed?
      ensures if old(phase).Closed? then phase == old(phase) else phase.k == 1 && phase.v == a
    {
      Call(CallbackSpec.FireWith(1, a), scripts);
    }

    method State() returns (s: Settlement)
      requires Valid()
      ensures s == if phase.Open? then Pending else Outcome(phase.k)
    {
      s := scope.state;
    }
  }
}
