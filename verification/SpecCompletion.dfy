/**
 The operator completes the component list of the spec and writes it back, from a copy that may
 be stale, while the user edits the list and both controllers write the status. Over whole runs:
 it never does so twice without an edit of the user in between.
 */
module SpecCompletion {
  import opened Wrappers
  import opened Components
  import opened Protocol
  import opened MigrationSafety

  /** A write of the completed list lands. */
  predicate Completes(e: Event) {
    e.WriteDefaults? && e.outcome != Rejected
  }

  /** Whatever is found out about the cluster, nothing is missing from this list. */
  ghost predicate Complete(cs: seq<Component>) {
    forall ctx :: !Incomplete(ctx, cs)
  }

  /** The list has two writers, and the operator's write completes the list that is stored. */
  lemma ComponentsHaveTwoWriters(w: World, e: Event)
    requires Inv(w) && Enabled(w, e)
    ensures !e.EditSpec? && !Completes(e) ==> Step(w, e).reg.components == w.reg.components
    ensures Completes(e) ==>
              Incomplete(e.ctx, w.reg.components) && Step(w, e).reg.components == Defaulted(e.ctx, w.reg.components)
  {
  }

  lemma CompletedIsComplete(ctx: Context, cs: seq<Component>)
    ensures Complete(Defaulted(ctx, cs))
  {
    forall later ensures !Incomplete(later, Defaulted(ctx, cs)) {
      DefaultedIsComplete(ctx, later, cs);
    }
  }

  function CountCompletions(events: seq<Event>): nat {
    if events == [] then 0
    else CountCompletions(events[..|events| - 1]) + if Completes(events[|events| - 1]) then 1 else 0
  }

  function CountEdits(events: seq<Event>): nat {
    if events == [] then 0
    else CountEdits(events[..|events| - 1]) + if events[|events| - 1].EditSpec? then 1 else 0
  }

  /** One for a complete list. */
  ghost function Completeness(w: World): nat {
    if Complete(w.reg.components) then 1 else 0
  }

  /** A completion takes an incomplete list, and only an edit makes one. */
  lemma {:induction false} CompletionsAreFew(states: seq<World>, events: seq<Event>, i: nat)
    requires IsRun(states, events) && Inv(states[0]) && i <= |events|
    ensures CountCompletions(events[..i]) + Completeness(states[0]) <= CountEdits(events[..i]) + Completeness(states[i])
  {
    if i > 0 {
      var w, e := states[i - 1], events[i - 1];
      CompletionsAreFew(states, events, i - 1);
      RunKeepsInv(states, events, i - 1);
      assert Enabled(w, e) && states[i] == Step(w, e);
      assert events[..i][..i - 1] == events[..i - 1];
      ComponentsHaveTwoWriters(w, e);
      if Completes(e) {
        CompletedIsComplete(e.ctx, w.reg.components);
      }
    }
  }

  /**
   In every run of both controllers, whatever fails and whatever is stale: the operator completes
   the spec at most once more often than the user edits it, and if it was complete at first, not
   even that. So between two edits it does so at most once.
   */
  lemma SpecIsCompletedAtMostOnce(states: seq<World>, events: seq<Event>)
    requires IsRun(states, events) && Inv(states[0])
    ensures CountCompletions(events) <= CountEdits(events) + 1
    ensures Complete(states[0].reg.components) ==> CountCompletions(events) <= CountEdits(events)
  {
    CompletionsAreFew(states, events, |events|);
    assert events[..|events|] == events;
  }
}
