/** Replacing the credentials file: write a private temporary file, then rename it
    over the destination (`token.rs`). File names are relative to the
    credentials directory; a rename is atomic. */
module AtomicWrite {
  import opened Wrappers
  import opened Decimal

  const DESTINATION := "credentials.json"

  function TempName(pid: nat, sequence: nat): string {
    ".credentials.json.tmp." + Show(pid) + "." + Show(sequence)
  }

  lemma TempNamesDistinct(pid: nat, m: nat, n: nat)
    ensures TempName(pid, m) == TempName(pid, n) <==> m == n
    ensures TempName(pid, m) != DESTINATION
  {
    var front := ".credentials.json.tmp." + Show(pid) + ".";
    assert TempName(pid, m)[|front|..] == Show(m) && TempName(pid, n)[|front|..] == Show(n);
    ShowInjective(m, n);
    assert TempName(pid, m)[0] == '.' && DESTINATION[0] == 'c';
  }

  type Content = seq<bv8>
  type Files = map<string, Content>

  // The operation that failed.
  datatype Stage = Opening | Writing | Syncing | Replacing | Permissions

  datatype Phase =
    | Numbered                  // has its sequence number, nothing on disk
    | Opened(written: nat)      // so many bytes are in the temporary file
    | Written
    | Synced
    | Replaced
    | Failing(at: Stage)        // cleanup comes next
    | Done(failed: Option<Stage>)

  datatype Writer = Writer(content: Content, phase: Phase)

  // Writers are listed by sequence number, so their count is the counter.
  // `replaced` is history: the writers whose rename has happened.
  datatype World = World(files: Files, writers: seq<Writer>, replaced: seq<nat>)

  datatype Step =
    | Begin(content: Content)
    | Open(i: nat, ok: bool)
    | Write(i: nat, upTo: nat)
    | EndWrite(i: nat, ok: bool)
    | Sync(i: nat, ok: bool)
    | Replace(i: nat, ok: bool)
    | SetPermissions(i: nat, ok: bool)
    | Cleanup(i: nat, ok: bool)

  function Start(files: Files): World { World(files, [], []) }

  function InPhase(w: World, i: nat, p: Phase): World
    requires i < |w.writers|
  {
    w.(writers := w.writers[i := w.writers[i].(phase := p)])
  }

  function Acting(step: Step): Option<nat> {
    if step.Begin? then None else Some(step.i)
  }

  // One writer's next system call. A step its phase does not allow changes nothing.
  function Next(w: World, pid: nat, step: Step): World {
    if step.Begin? then w.(writers := w.writers + [Writer(step.content, Numbered)])
    else if step.i >= |w.writers| then w
    else
      var me, temp := w.writers[step.i], TempName(pid, step.i);
      match step
      case Open(i, ok) =>
        if me.phase != Numbered then w
        else if !ok || temp in w.files then InPhase(w, i, Failing(Opening))
        else InPhase(w.(files := w.files[temp := []]), i, Opened(0))
      case Write(i, upTo) =>
        if !me.phase.Opened? || upTo < me.phase.written || upTo > |me.content| then w
        else InPhase(w.(files := w.files[temp := me.content[..upTo]]), i, Opened(upTo))
      case EndWrite(i, ok) =>
        if !me.phase.Opened? || (ok && me.phase.written < |me.content|) then w
        else InPhase(w, i, if ok then Written else Failing(Writing))
      case Sync(i, ok) =>
        if me.phase != Written then w else InPhase(w, i, if ok then Synced else Failing(Syncing))
      case Replace(i, ok) =>
        if me.phase != Synced then w
        else if !ok || temp !in w.files then InPhase(w, i, Failing(Replacing))
        else
          InPhase(w.(files := (w.files - {temp})[DESTINATION := w.files[temp]], replaced := w.replaced + [i]),
                  i, Replaced)
      case SetPermissions(i, ok) =>
        if me.phase != Replaced then w else InPhase(w, i, if ok then Done(None) else Failing(Permissions))
      case Cleanup(i, ok) =>
        if !me.phase.Failing? then w
        else InPhase(if ok then w.(files := w.files - {temp}) else w, i, Done(Some(me.phase.at)))
  }

  function Run(w: World, pid: nat, steps: seq<Step>): World {
    if steps == [] then w else Next(Run(w, pid, steps[..|steps| - 1]), pid, steps[|steps| - 1])
  }

  // ----------------------------------------------------------------- invariant

  // What the destination should hold: the last rename's content, else what was
  // there at the start.
  ghost function Expected(initial: Files, w: World): Option<Content>
    requires forall k :: 0 <= k < |w.replaced| ==> w.replaced[k] < |w.writers|
  {
    if w.replaced != [] then Some(w.writers[w.replaced[|w.replaced| - 1]].content)
    else if DESTINATION in initial then Some(initial[DESTINATION])
    else None
  }

  function Lookup(files: Files, name: string): Option<Content> {
    if name in files then Some(files[name]) else None
  }

  // A writer that has opened its file and not yet renamed it finds there what
  // it wrote; one that finished well or was past the rename left none behind.
  ghost predicate WriterSound(initial: Files, w: World, pid: nat, i: nat)
    requires i < |w.writers|
  {
    var me, mine := w.writers[i], Lookup(w.files, TempName(pid, i));
    match me.phase
    case Numbered => i !in w.replaced && mine == Lookup(initial, TempName(pid, i))
    case Opened(n) => i !in w.replaced && n <= |me.content| && mine == Some(me.content[..n])
    case Written => i !in w.replaced && mine == Some(me.content)
    case Synced => i !in w.replaced && mine == Some(me.content)
    case Replaced => i in w.replaced && mine == None
    case Failing(at) => (i in w.replaced <==> at == Permissions) && (at == Permissions ==> mine == None)
    case Done(None) => i in w.replaced && mine == None
    case Done(Some(at)) => i in w.replaced <==> at == Permissions
  }

  ghost predicate Inv(initial: Files, w: World, pid: nat) {
    && (forall k :: 0 <= k < |w.replaced| ==> w.replaced[k] < |w.writers|)
    && (forall i :: 0 <= i < |w.writers| ==> WriterSound(initial, w, pid, i))
    && (forall n: nat :: n >= |w.writers| ==> Lookup(w.files, TempName(pid, n)) == Lookup(initial, TempName(pid, n)))
    && Lookup(w.files, DESTINATION) == Expected(initial, w)
  }

  // A step touches no file but its writer's own and the destination, no other
  // writer, and no other writer's place in the history.
  lemma StepsStayApart(initial: Files, w: World, pid: nat, step: Step, j: nat)
    requires Inv(initial, w, pid) && Acting(step) != Some(j)
    ensures var v := Next(w, pid, step);
      && Lookup(v.files, TempName(pid, j)) == Lookup(w.files, TempName(pid, j))
      && (j in v.replaced <==> j in w.replaced)
      && (j < |w.writers| ==> j < |v.writers| && v.writers[j] == w.writers[j])
  {
    if !step.Begin? {
      TempNamesDistinct(pid, step.i, j);
      TempNamesDistinct(pid, j, j);
    }
  }

  lemma ActingStaysSound(initial: Files, w: World, pid: nat, step: Step)
    requires Inv(initial, w, pid) && !step.Begin? && step.i < |w.writers|
    ensures WriterSound(initial, Next(w, pid, step), pid, step.i)
  {
    assert WriterSound(initial, w, pid, step.i);
    TempNamesDistinct(pid, step.i, step.i);
    var v, content := Next(w, pid, step), w.writers[step.i].content;
    assert v.replaced == w.replaced || v.replaced == w.replaced + [step.i];
    assert content[..|content|] == content;
  }

  lemma DestinationFollows(initial: Files, w: World, pid: nat, step: Step)
    requires Inv(initial, w, pid)
    requires forall k :: 0 <= k < |Next(w, pid, step).replaced| ==>
      Next(w, pid, step).replaced[k] < |Next(w, pid, step).writers|
    ensures Lookup(Next(w, pid, step).files, DESTINATION) == Expected(initial, Next(w, pid, step))
  {
    if !step.Begin? && step.i < |w.writers| {
      assert WriterSound(initial, w, pid, step.i);
      TempNamesDistinct(pid, step.i, step.i);
    }
  }

  lemma StepKeepsInv(initial: Files, w: World, pid: nat, step: Step)
    requires Inv(initial, w, pid)
    ensures Inv(initial, Next(w, pid, step), pid)
  {
    var v := Next(w, pid, step);
    forall i | 0 <= i < |v.writers| ensures WriterSound(initial, v, pid, i) {
      if Acting(step) == Some(i) {
        ActingStaysSound(initial, w, pid, step);
      } else {
        StepsStayApart(initial, w, pid, step, i);
        if i < |w.writers| { assert WriterSound(initial, w, pid, i); }
      }
    }
    forall n: nat | n >= |v.writers| ensures Lookup(v.files, TempName(pid, n)) == Lookup(initial, TempName(pid, n)) {
      if Acting(step) != Some(n) { StepsStayApart(initial, w, pid, step, n); }
    }
    DestinationFollows(initial, w, pid, step);
  }

  lemma {:induction false} RunKeepsInv(initial: Files, pid: nat, steps: seq<Step>)
    ensures Inv(initial, Run(Start(initial), pid, steps), pid)
  {
    if steps != [] {
      RunKeepsInv(initial, pid, steps[..|steps| - 1]);
      StepKeepsInv(initial, Run(Start(initial), pid, steps[..|steps| - 1]), pid, steps[|steps| - 1]);
    }
  }

  // ------------------------------------------------------------------ theorems

  // After any steps of any number of writers, so also wherever the process stops
  // dead, the destination holds its initial content or the complete content of
  // one call, namely the last to rename.
  lemma {:induction false} DestinationIsWhole(initial: Files, pid: nat, steps: seq<Step>)
    ensures var w := Run(Start(initial), pid, steps);
      && (w.replaced == [] ==> Lookup(w.files, DESTINATION) == Lookup(initial, DESTINATION))
      && (w.replaced != [] ==>
           var last := w.replaced[|w.replaced| - 1];
           last < |w.writers| && Lookup(w.files, DESTINATION) == Some(w.writers[last].content))
  {
    RunKeepsInv(initial, pid, steps);
  }

  // A call that reports failure has changed the destination exactly when what
  // failed was the permission change after the rename; a call that reports
  // success has renamed and left no temporary file.
  lemma {:induction false} FailureLeavesDestination(initial: Files, pid: nat, steps: seq<Step>, i: nat)
    requires i < |Run(Start(initial), pid, steps).writers| && Run(Start(initial), pid, steps).writers[i].phase.Done?
    ensures var w := Run(Start(initial), pid, steps); var failed := w.writers[i].phase.failed;
      && (i in w.replaced <==> failed == None || failed == Some(Permissions))
      && (failed == None ==> TempName(pid, i) !in w.files)
  {
    RunKeepsInv(initial, pid, steps);
    assert WriterSound(initial, Run(Start(initial), pid, steps), pid, i);
  }

  // Only a rename changes the destination, and then to what its own writer wrote.
  lemma {:induction false} OnlyReplaceChanges(initial: Files, pid: nat, steps: seq<Step>, step: Step)
    requires var w := Run(Start(initial), pid, steps);
      Lookup(Next(w, pid, step).files, DESTINATION) != Lookup(w.files, DESTINATION)
    ensures var w := Run(Start(initial), pid, steps);
      && step.Replace? && step.ok && step.i < |w.writers| && w.writers[step.i].phase == Synced
      && Lookup(Next(w, pid, step).files, DESTINATION) == Some(w.writers[step.i].content)
  {
    var w := Run(Start(initial), pid, steps);
    RunKeepsInv(initial, pid, steps);
    if !step.Begin? && step.i < |w.writers| {
      assert WriterSound(initial, w, pid, step.i);
      TempNamesDistinct(pid, step.i, step.i);
    }
  }

  // The operation `at` of writer `i` fails in this step: the system refuses it, or
  // finds the temporary file there before it is opened or gone before the rename.
  predicate FailsNow(w: World, pid: nat, step: Step, i: nat, at: Stage) {
    i < |w.writers|
    && var phase, there := w.writers[i].phase, TempName(pid, i) in w.files;
       match at
       case Opening => (step == Open(i, false) || (step == Open(i, true) && there)) && phase.Numbered?
       case Writing => step == EndWrite(i, false) && phase.Opened?
       case Syncing => step == Sync(i, false) && phase.Written?
       case Replacing => (step == Replace(i, false) || (step == Replace(i, true) && !there)) && phase.Synced?
       case Permissions => step == SetPermissions(i, false) && phase.Replaced?
  }

  predicate FailedAt(initial: Files, pid: nat, steps: seq<Step>, i: nat, at: Stage) {
    steps != []
    && (FailedAt(initial, pid, steps[..|steps| - 1], i, at)
        || FailsNow(Run(Start(initial), pid, steps[..|steps| - 1]), pid, steps[|steps| - 1], i, at))
  }

  predicate CleanedUp(initial: Files, pid: nat, steps: seq<Step>, i: nat) {
    steps != []
    && (CleanedUp(initial, pid, steps[..|steps| - 1], i)
        || (steps[|steps| - 1] == Cleanup(i, true)
            && var w := Run(Start(initial), pid, steps[..|steps| - 1]);
               i < |w.writers| && w.writers[i].phase.Failing?))
  }

  predicate Blames(w: World, i: nat, at: Stage) {
    i < |w.writers| && (w.writers[i].phase == Failing(at) || w.writers[i].phase == Done(Some(at)))
  }

  lemma StepBlames(w: World, pid: nat, step: Step, i: nat, at: Stage)
    ensures Blames(Next(w, pid, step), i, at) <==> Blames(w, i, at) || FailsNow(w, pid, step, i, at)
  {
    if !step.Begin? && step.i < |w.writers| {
      OneActs(w, pid, step);
      if step.i == i { OwnBlames(w, pid, step, at); }
    }
  }

  lemma OneActs(w: World, pid: nat, step: Step)
    requires !step.Begin? && step.i < |w.writers|
    ensures var v := Next(w, pid, step);
      |v.writers| == |w.writers| && forall j :: 0 <= j < |w.writers| && j != step.i ==> v.writers[j] == w.writers[j]
  {
  }

  lemma OwnBlames(w: World, pid: nat, step: Step, at: Stage)
    requires !step.Begin? && step.i < |w.writers|
    ensures Blames(Next(w, pid, step), step.i, at) <==>
      Blames(w, step.i, at) || FailsNow(w, pid, step, step.i, at)
  {
  }

  // A call reports the failure of an operation exactly if that operation failed.
  lemma {:induction false} FailureReported(initial: Files, pid: nat, steps: seq<Step>, i: nat, at: Stage)
    ensures Blames(Run(Start(initial), pid, steps), i, at) <==> FailedAt(initial, pid, steps, i, at)
  {
    if steps != [] {
      FailureReported(initial, pid, steps[..|steps| - 1], i, at);
      StepBlames(Run(Start(initial), pid, steps[..|steps| - 1]), pid, steps[|steps| - 1], i, at);
    }
  }

  ghost predicate Gone(w: World, pid: nat, i: nat) {
    i < |w.writers| && w.writers[i].phase.Done? && TempName(pid, i) !in w.files
  }

  lemma StepStaysGone(initial: Files, w: World, pid: nat, step: Step, i: nat)
    requires Inv(initial, w, pid) && Gone(w, pid, i)
    ensures Gone(Next(w, pid, step), pid, i)
  {
    if Acting(step) != Some(i) { StepsStayApart(initial, w, pid, step, i); }
  }

  // A failed call that could clean up has left no temporary file, for good.
  lemma {:induction false} NothingLeftBehind(initial: Files, pid: nat, steps: seq<Step>, i: nat)
    requires CleanedUp(initial, pid, steps, i)
    ensures TempName(pid, i) !in Run(Start(initial), pid, steps).files
    ensures Gone(Run(Start(initial), pid, steps), pid, i)
  {
    var front := steps[..|steps| - 1];
    if CleanedUp(initial, pid, front, i) {
      NothingLeftBehind(initial, pid, front, i);
      RunKeepsInv(initial, pid, front);
      StepStaysGone(initial, Run(Start(initial), pid, front), pid, steps[|steps| - 1], i);
    }
  }

  // ------------------------------------------------------------------- machine

  lemma PutThenRemoved(files: Files, name: string, content: Content)
    ensures files[name := content] - {name} == files - {name}
  {
  }

  /** The credentials directory as one call of `atomic_write` sees it, alone. */
  class Directory {
    const pid: nat
    var files: Files
    var counter: nat

    constructor (pid: nat, files: Files)
      ensures this.pid == pid && this.files == files && counter == 0
    {
      this.pid, this.files, counter := pid, files, 0;
    }

    // `fault` is the system call the operating system refuses, if any, and
    // `landed` how many bytes a refused write leaves behind.
    method Write(content: Content, fault: Option<Stage>, landed: nat) returns (failed: Option<Stage>)
      modifies this
      ensures counter == old(counter) + 1
      ensures failed == if TempName(pid, old(counter)) in old(files) then Some(Opening) else fault
      ensures var others := old(files) - {TempName(pid, old(counter))};
        files == if failed == None || failed == Some(Permissions) then others[DESTINATION := content] else others
    {
      var temporary := TempName(pid, counter);
      TempNamesDistinct(pid, counter, counter);
      counter := counter + 1;
      failed := Attempt(temporary, content, fault, landed);
      if failed.Some? {
        files := files - {temporary};
      }
    }

    method Attempt(temporary: string, content: Content, fault: Option<Stage>, landed: nat)
        returns (failed: Option<Stage>)
      requires temporary != DESTINATION
      modifies this`files
      ensures failed == if temporary in old(files) then Some(Opening) else fault
      ensures if failed == None || failed == Some(Permissions) then
        files == (old(files) - {temporary})[DESTINATION := content]
              else files - {temporary} == old(files) - {temporary}
    {
      if temporary in files || fault == Some(Opening) {
        return Some(Opening);
      }
      // The file is created empty; a refused write has left some prefix in it.
      if fault == Some(Writing) {
        files := files[temporary := content[..if landed < |content| then landed else |content|]];
        PutThenRemoved(old(files), temporary, files[temporary]);
        return fault;
      }
      files := files[temporary := content];
      PutThenRemoved(old(files), temporary, content);
      if fault == Some(Syncing) || fault == Some(Replacing) {
        return fault;
      }
      assert fault.Some? ==> fault.value.Permissions?;
      files := (files - {temporary})[DESTINATION := files[temporary]];
      return fault;
    }
  }
}
