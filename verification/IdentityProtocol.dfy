/** Launchers that share one identity file (openclaw-plugin/src/launcher.ts:522-604). */
module IdentityProtocol {
  import opened Wrappers
  import opened JsonText
  import opened JsonReader
  import opened IdentityFile
  import opened IdentityFacts

  /**
   * One launcher: before its first look at the file; after it found none; writing the file it
   * created; after another launcher won the creation; done, failed, or killed.
   */
  datatype Launcher =
    | Starting
    | Creating
    | Writing(identity: Identity)
    | Rereading
    | Done(identity: Identity)
    | Failed(error: Option<IdentityError>)
    | Crashed

  /** The file's content, if it exists, and the launchers. */
  datatype State = State(file: Option<Text>, launchers: map<nat, Launcher>)

  datatype Action =
    | Launch(l: nat)
    | Look(l: nat)
    | Read(l: nat, size: nat, length: nat)
    | Create(l: nat, identity: Identity)
    | Write(l: nat, units: nat)
    | Finish(l: nat)
    | Crash(l: nat)

  /**
   * A file that is read while it grows: its size when it was opened, and how much of the content
   * the read then returned.
   */
  function ReadStored(content: Text, size: nat, length: nat): Result<Identity, IdentityError>
    requires size <= |content| && length <= |content|
  {
    if size < 1 || size > MAX_RUNTIME_IDENTITY_BYTES then Err(InvalidSize) else ParseStoredRuntimeIdentity(content[..length])
  }

  /** Only the size decides whether a file is looked into: from 1 to 4096 bytes. */
  lemma SizeDecides(content: Text, size: nat, length: nat)
    requires size <= |content| && length <= |content|
    ensures ReadStored(content, size, length) == Err(InvalidSize) <==> size == 0 || size > 4_096
  {
    hide Parse, Property, ValidatedSecret, ValidatedOwnerId;
    SecretErrors();
  }

  lemma SecretErrors()
    ensures forall t :: ValidatedSecret(t).Err? ==> ValidatedSecret(t).error == WeakSecret
    ensures forall t :: ValidatedOwnerId(t).Err? ==> ValidatedOwnerId(t).error == InvalidOwner
  {
  }

  predicate In(s: State, l: nat) {
    l in s.launchers
  }

  /** Only an identity from randomRuntimeIdentity is ever written; nothing deletes the file. */
  ghost predicate Enabled(s: State, a: Action) {
    match a
    case Launch(l) => l !in s.launchers
    case Look(l) => In(s, l) && s.launchers[l] == Starting && s.file.None?
    case Read(l, size, length) =>
      In(s, l) && (s.launchers[l] == Starting || s.launchers[l] == Rereading) && s.file.Some?
      && size <= |s.file.value| && length <= |s.file.value|
    case Create(l, identity) => In(s, l) && s.launchers[l] == Creating && Generated(identity)
    case Write(l, units) =>
      In(s, l) && s.launchers[l].Writing? && s.file.Some?
      && |s.file.value| + units <= |FileText(s.launchers[l].identity)|
    case Finish(l) =>
      In(s, l) && s.launchers[l].Writing? && s.file.Some? && |s.file.value| == |FileText(s.launchers[l].identity)|
    case Crash(l) => In(s, l) && !s.launchers[l].Done? && !s.launchers[l].Failed? && !s.launchers[l].Crashed?
  }

  function Become(s: State, l: nat, launcher: Launcher): State {
    s.(launchers := s.launchers[l := launcher])
  }

  ghost function Next(s: State, a: Action): State
    requires Enabled(s, a)
  {
    match a
    case Launch(l) => Become(s, l, Starting)
    case Look(l) => Become(s, l, Creating)
    case Read(l, size, length) =>
      (match ReadStored(s.file.value, size, length)
       case Ok(identity) => Become(s, l, Done(identity))
       case Err(error) => Become(s, l, Failed(Some(error))))
    case Create(l, identity) =>
      if s.file.None? then Become(s, l, Writing(identity)).(file := Some([])) else Become(s, l, Rereading)
    case Write(l, units) =>
      s.(file := Some(FileText(s.launchers[l].identity)[..|s.file.value| + units]))
    case Finish(l) => Become(s, l, Done(s.launchers[l].identity))
    case Crash(l) => Become(s, l, Crashed)
  }

  /** A run from a directory without the file. */
  ghost predicate IsRun(states: seq<State>, actions: seq<Action>) {
    && |states| == |actions| + 1 && states[0] == State(None, map[])
    && forall i | 0 <= i < |actions| :: Enabled(states[i], actions[i]) && states[i + 1] == Next(states[i], actions[i])
  }

  /** The step creates the file. */
  ghost predicate Creates(s: State, a: Action) {
    a.Create? && Enabled(s, a) && s.file.None?
  }

  // ---- Agreement ------------------------------------------------------------------------------

  /** Before the creation nobody has an identity; after it, the file and every launcher go by the creator's. */
  ghost predicate Inv(s: State, author: Option<(nat, Identity)>) {
    match author
    case None =>
      s.file.None? && forall l | l in s.launchers :: !s.launchers[l].Writing? && !s.launchers[l].Done? && !s.launchers[l].Rereading?
    case Some((creator, identity)) =>
      && Generated(identity) && s.file.Some? && s.file.value <= FileText(identity)
      && forall l | l in s.launchers ::
           (s.launchers[l].Writing? ==> l == creator && s.launchers[l].identity == identity)
           && (s.launchers[l].Done? ==> s.launchers[l].identity == identity)
  }

  ghost function AuthorAfter(s: State, a: Action, author: Option<(nat, Identity)>): Option<(nat, Identity)> {
    if Creates(s, a) then Some((a.l, a.identity)) else author
  }

  lemma StepKeepsInv(s: State, a: Action, author: Option<(nat, Identity)>)
    requires Inv(s, author) && Enabled(s, a)
    ensures Inv(Next(s, a), AuthorAfter(s, a, author))
    ensures Creates(s, a) ==> author.None?
  {
    hide Generated, FileText, ParseStoredRuntimeIdentity;
    match a
    case Read(l, size, length) =>
      var identity := author.value.1;
      TornReads(identity, s.file.value[..length]);
    case Create(l, identity) =>
    case _ =>
  }

  /** Who created the file in a run, if anybody has. */
  ghost function Author(states: seq<State>, actions: seq<Action>, i: nat): Option<(nat, Identity)>
    requires IsRun(states, actions) && i < |states|
  {
    if i == 0 then None else AuthorAfter(states[i - 1], actions[i - 1], Author(states, actions, i - 1))
  }

  lemma {:induction false} RunInv(states: seq<State>, actions: seq<Action>, i: nat)
    requires IsRun(states, actions) && i < |states|
    ensures Inv(states[i], Author(states, actions, i))
    decreases i
  {
    hide Inv, Next, Enabled, AuthorAfter;
    if i == 0 {
      EmptyInv();
    } else {
      RunInv(states, actions, i - 1);
      StepKeepsInv(states[i - 1], actions[i - 1], Author(states, actions, i - 1));
    }
  }

  lemma EmptyInv()
    ensures Inv(State(None, map[]), None)
  {
  }

  lemma {:induction false} AuthorStays(states: seq<State>, actions: seq<Action>, i: nat, j: nat)
    requires IsRun(states, actions) && i <= j < |states| && Author(states, actions, i).Some?
    ensures Author(states, actions, j) == Author(states, actions, i)
    decreases j - i
  {
    hide Inv, Next, Enabled, AuthorAfter;
    if i < j {
      AuthorStays(states, actions, i, j - 1);
      RunInv(states, actions, j - 1);
      StepKeepsInv(states[j - 1], actions[j - 1], Author(states, actions, j - 1));
      NoSecondAuthor(states[j - 1], actions[j - 1], Author(states, actions, j - 1));
    }
  }

  lemma NoSecondAuthor(s: State, a: Action, author: Option<(nat, Identity)>)
    requires Inv(s, author) && author.Some?
    ensures AuthorAfter(s, a, author) == author
  {
  }

  /** At most one launcher of a run creates the file. */
  lemma CreatedOnce(states: seq<State>, actions: seq<Action>, i: nat, j: nat)
    requires IsRun(states, actions) && i < |actions| && j < |actions|
    requires Creates(states[i], actions[i]) && Creates(states[j], actions[j])
    ensures i == j
  {
    RunInv(states, actions, i);
    RunInv(states, actions, j);
    StepKeepsInv(states[i], actions[i], Author(states, actions, i));
    StepKeepsInv(states[j], actions[j], Author(states, actions, j));
    hide Inv, Next, Enabled;
    if i < j {
      assert Author(states, actions, i + 1).Some?;
      AuthorStays(states, actions, i + 1, j);
    }
    if j < i {
      assert Author(states, actions, j + 1).Some?;
      AuthorStays(states, actions, j + 1, i);
    }
  }

  /** All launchers that return, at whatever time, return the same identity: the one the creator wrote. */
  lemma AllAgree(states: seq<State>, actions: seq<Action>, i: nat, j: nat, k: nat, l: nat)
    requires IsRun(states, actions) && i < |states| && j < |states|
    requires k in states[i].launchers && states[i].launchers[k].Done? && l in states[j].launchers && states[j].launchers[l].Done?
    ensures states[i].launchers[k].identity == states[j].launchers[l].identity
  {
    RunInv(states, actions, i);
    RunInv(states, actions, j);
    hide Next, Enabled, IsRun, AuthorAfter;
    if i <= j { AuthorStays(states, actions, i, j); } else { AuthorStays(states, actions, j, i); }
  }

  /** A read returns the creator's identity exactly when it gets the whole object; a torn one fails. */
  lemma ReadsAreExact(states: seq<State>, actions: seq<Action>, i: nat)
    requires IsRun(states, actions) && i < |actions| && actions[i].Read?
    ensures var a := actions[i];
            var author := Author(states, actions, i);
            && author.Some?
            && (states[i + 1].launchers[a.l] == Done(author.value.1)
                <==> a.size >= 1 && a.length + 1 >= |FileText(author.value.1)|)
            && (states[i + 1].launchers[a.l].Done? || states[i + 1].launchers[a.l].Failed?)
  {
    RunInv(states, actions, i);
    assert Enabled(states[i], actions[i]);
    var identity := Author(states, actions, i).value.1;
    TornReads(identity, states[i].file.value[..actions[i].length]);
    FileSize(identity);
    hide FileText, ParseStoredRuntimeIdentity, Generated;
  }
}
