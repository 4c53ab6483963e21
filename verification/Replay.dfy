// A push counts once: dropping every repeat of an answered mutation from a run
// changes nothing, and each repeat is answered with the first attempt's
// position and conflicts (internal/store/pipeline.go, the idempotency memo).
module Replay {
  import opened Values
  import opened Vocabulary
  import opened Merging
  import opened Registry
  import opened Database
  import opened Guards
  import opened Pipeline
  import opened Restoring
  import opened System
  import opened Reverts

  /** The mutation an event pushes, by its id. */
  function IdOf(e: Event): Option<string> {
    match e
    case Push(_, m, _) => Some(m.mutationId)
    case _ => None
  }

  /** What an event is answered, if it is a push. */
  function AnswerIn(reg: Registry, s: Sys, e: Event): Answer {
    match e
    case Push(p, m, w) => Apply(reg, s.db, w, p, m).1
    case _ => Failed
  }

  /** The answer event `i` of a run got. */
  function AnswerTo(reg: Registry, s: Sys, events: seq<Event>, i: int): Answer {
    AnswerIn(reg, RunTo(reg, s, events, i), Nth(events, i))
  }

  /** Event `i` is a push of mutation `id` and was answered. */
  predicate Answered(reg: Registry, s: Sys, events: seq<Event>, i: int, id: string) {
    IdOf(Nth(events, i)) == Some(id) && AnswerTo(reg, s, events, i).Replied?
  }

  predicate AnsweredBefore(reg: Registry, s: Sys, events: seq<Event>, n: int, id: string) {
    id in s.db.memo || exists j | 0 <= j < n :: Answered(reg, s, events, j, id)
  }

  /** Event `i` repeats a mutation that was answered before. */
  predicate Repeats(reg: Registry, s: Sys, events: seq<Event>, i: int) {
    match IdOf(Nth(events, i))
    case Some(id) => AnsweredBefore(reg, s, events, i, id)
    case None => false
  }

  /** The first `n` events without the repeats. */
  function Sifted(reg: Registry, s: Sys, events: seq<Event>, n: int): seq<Event> {
    if n <= 0 then []
    else Sifted(reg, s, events, n - 1) + (if Repeats(reg, s, events, n - 1) then [] else [Nth(events, n - 1)])
  }

  // ------------------------------------------------------------ the memo's story

  /** An answered push is entered under its id; one that is not answered changes nothing. */
  ghost predicate Enters(a: Db, b: Db, id: string, answer: Answer) {
    if answer.Replied? then id !in a.memo && b.memo == a.memo[id := Memo(answer.outcome, answer.conflicts, answer.at)]
    else b == a
  }

  lemma EndEnters(db: Db, p: Partition, m: Mutation, e: Ending)
    requires m.mutationId !in db.memo
    ensures Enters(db, End(db, p, m, e).0, m.mutationId, End(db, p, m, e).1)
  {
  }

  lemma ApplyEnters(reg: Registry, db: Db, w: Env, p: Partition, m: Mutation)
    ensures var (b, answer) := Apply(reg, db, w, p, m);
      if m.mutationId in db.memo then
        b == db && (Valid(reg, m, p) ==>
          answer == Replied(Duplicate, Granted, db.memo[m.mutationId].conflicts, db.memo[m.mutationId].at))
      else Enters(db, b, m.mutationId, answer)
  {
    if Valid(reg, m, p) && m.mutationId !in db.memo {
      var n, e := PushEnds(reg, db, w, p, m);
      EndEnters(db, p, n, e);
    }
  }

  /** Only pushes touch the memo. */
  lemma OthersKeepMemo(reg: Registry, s: Sys, e: Event)
    requires !e.Push?
    ensures Next(reg, s, e).db.memo == s.db.memo
  {
    match e
    case Revert(p, r, w, wall) => RestoreConflicts(reg, s.db, s.gen, w, p, r, wall);
    case Claim(trip, item, taker, w, wall) => TakeOverConflicts(reg, s.db, s.gen, w, trip, item, taker, wall);
    case _ =>
  }

  lemma AnsweredStep(reg: Registry, s: Sys, events: seq<Event>, n: nat, id: string)
    ensures AnsweredBefore(reg, s, events, n + 1, id) <==>
      AnsweredBefore(reg, s, events, n, id) || Answered(reg, s, events, n, id)
  {
    hide Answered;
  }

  /** One event enters exactly the push it answered. */
  lemma MemoTellsOnce(reg: Registry, s: Sys, e: Event, id: string)
    ensures id in Next(reg, s, e).db.memo <==> id in s.db.memo || (IdOf(e) == Some(id) && AnswerIn(reg, s, e).Replied?)
  {
    hide Apply, Restore, TakeOver;
    match e
    case Push(p, m, w) => ApplyEnters(reg, s.db, w, p, m);
    case _ => OthersKeepMemo(reg, s, e);
  }

  /** After `n` events the memo has exactly the mutations answered by then. */
  lemma {:induction false} MemoTells(reg: Registry, s: Sys, events: seq<Event>, n: nat, id: string)
    requires n <= |events|
    ensures id in RunTo(reg, s, events, n).db.memo <==> AnsweredBefore(reg, s, events, n, id)
  {
    hide Next, AnswerIn, IdOf;
    if n > 0 {
      MemoTells(reg, s, events, n - 1, id);
      MemoTellsOnce(reg, RunTo(reg, s, events, n - 1), Nth(events, n - 1), id);
      AnsweredStep(reg, s, events, n - 1, id);
      OneFurther(reg, s, events, n - 1);
    }
  }

  // ------------------------------------------------------------------ exactly once

  /** A repeat changes nothing. */
  lemma RepeatIsIdle(reg: Registry, s: Sys, events: seq<Event>, i: nat)
    requires i < |events| && Repeats(reg, s, events, i)
    ensures Next(reg, RunTo(reg, s, events, i), Nth(events, i)) == RunTo(reg, s, events, i)
  {
    hide Apply, RunTo, AnsweredBefore;
    var e := Nth(events, i);
    MemoTells(reg, s, events, i, e.m.mutationId);
    ApplyEnters(reg, RunTo(reg, s, events, i).db, e.w, e.p, e.m);
  }

  lemma RunExtends(reg: Registry, s: Sys, events: seq<Event>, e: Event)
    ensures Run(reg, s, events + [e]) == Next(reg, Run(reg, s, events), e)
  {
    hide Next;
    assert (events + [e])[..|events + [e]| - 1] == events;
  }

  /** The run without its repeats ends in the same state: same rows, same logs, same memo. */
  lemma {:induction false} RepeatsDoNotCount(reg: Registry, s: Sys, events: seq<Event>, n: nat)
    requires n <= |events|
    ensures Run(reg, s, Sifted(reg, s, events, n)) == RunTo(reg, s, events, n)
  {
    hide Next, Repeats;
    if n > 0 {
      RepeatsDoNotCount(reg, s, events, n - 1);
      OneFurther(reg, s, events, n - 1);
      if Repeats(reg, s, events, n - 1) {
        RepeatIsIdle(reg, s, events, n - 1);
        assert Sifted(reg, s, events, n) == Sifted(reg, s, events, n - 1);
      } else {
        RunExtends(reg, s, Sifted(reg, s, events, n - 1), events[n - 1]);
      }
    }
  }

  function MemoOf(s: Sys, id: string): Option<Memo> {
    if id in s.db.memo then Some(s.db.memo[id]) else None
  }

  /** What the memo says of a mutation it keeps saying. */
  lemma {:induction false} MemoStays(reg: Registry, s: Sys, events: seq<Event>, i: nat, n: nat, id: string)
    requires i <= n <= |events| && MemoOf(RunTo(reg, s, events, i), id).Some?
    ensures MemoOf(RunTo(reg, s, events, n), id) == MemoOf(RunTo(reg, s, events, i), id)
    decreases n
  {
    hide Next, RunTo;
    if i < n {
      MemoStays(reg, s, events, i, n - 1, id);
      OneFurther(reg, s, events, n - 1);
      NextKeepsMemo(reg, RunTo(reg, s, events, n - 1), Nth(events, n - 1), id);
    }
  }

  lemma NextKeepsMemo(reg: Registry, s: Sys, e: Event, id: string)
    requires MemoOf(s, id).Some?
    ensures MemoOf(Next(reg, s, e), id) == MemoOf(s, id)
  {
    hide Apply, Restore, TakeOver;
    match e
    case Push(p, m, w) => ApplyEnters(reg, s.db, w, p, m);
    case _ => OthersKeepMemo(reg, s, e);
  }

  /** An answered mutation pushed again. */
  function Again(first: Answer): Answer {
    match first
    case Replied(_, _, conflicts, at) => Replied(Duplicate, Granted, conflicts, at)
    case other => other
  }

  predicate IsValid(reg: Registry, e: Event) {
    match e
    case Push(p, m, _) => Valid(reg, m, p)
    case _ => false
  }

  /** A first push leaves its answer in the memo, and one the memo knows is answered from it. */
  lemma AnswerIsEntered(reg: Registry, s: Sys, e: Event, id: string)
    requires IdOf(e) == Some(id)
    ensures MemoOf(s, id).None? && AnswerIn(reg, s, e).Replied? ==>
      MemoOf(Next(reg, s, e), id).Some? && Again(AnswerIn(reg, s, e)) == FromMemo(MemoOf(Next(reg, s, e), id))
    ensures MemoOf(s, id).Some? && IsValid(reg, e) ==> AnswerIn(reg, s, e) == FromMemo(MemoOf(s, id))
  {
    hide Apply;
    ApplyEnters(reg, s.db, e.w, e.p, e.m);
  }

  function FromMemo(memo: Option<Memo>): Answer {
    match memo
    case Some(known) => Replied(Duplicate, Granted, known.conflicts, known.at)
    case None => Failed
  }

  /** A repeat is answered `duplicate`, with the first attempt's position and conflicts, refused or not. */
  lemma RepeatIsAnsweredAsFirst(reg: Registry, s: Sys, events: seq<Event>, i: nat, n: nat, id: string)
    requires i < n < |events| && IdOf(Nth(events, i)) == IdOf(Nth(events, n)) == Some(id)
    requires AnswerTo(reg, s, events, i).Replied? && !Repeats(reg, s, events, i) && IsValid(reg, Nth(events, n))
    ensures AnswerTo(reg, s, events, n) == Again(AnswerTo(reg, s, events, i))
  {
    hide Next, RunTo, AnswerIn, IdOf, IsValid, AnsweredBefore;
    MemoTells(reg, s, events, i, id);
    AnswerIsEntered(reg, RunTo(reg, s, events, i), Nth(events, i), id);
    OneFurther(reg, s, events, i);
    MemoStays(reg, s, events, i + 1, n, id);
    AnswerIsEntered(reg, RunTo(reg, s, events, n), Nth(events, n), id);
  }
}
