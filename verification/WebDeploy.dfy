/** Deploying a pinned web image: the pin in the env file, the running container,
    and the journal between them, under crashes and repairs. */
module WebDeploy {
  import opened Lifecycle
  import opened EnvFile
  import opened EnvPatch

  // ---------------------------------------------------------------- The pin

  const WEB_KEY := "WEB_GAME_TAG"
  const IMAGE_KEY := "IMAGE_TAG"

  /** The web pin, falling back to the server's image tag. */
  function Pin(lines: seq<EnvLine>): string {
    var values := Values(lines);
    if WEB_KEY in values && values[WEB_KEY] != "" then values[WEB_KEY]
    else if IMAGE_KEY in values && values[IMAGE_KEY] != "" then values[IMAGE_KEY]
    else "latest"
  }

  function Repinned(line: EnvLine, pin: string): EnvLine {
    if Assigns(line, WEB_KEY) then KV(WEB_KEY, pin) else line
  }

  function RepinAll(lines: seq<EnvLine>, pin: string): (r: seq<EnvLine>)
    ensures |r| == |lines|
  {
    seq(|lines|, i requires 0 <= i < |lines| => Repinned(lines[i], pin))
  }

  predicate AssignsPin(lines: seq<EnvLine>) {
    exists i :: 0 <= i < |lines| && Assigns(lines[i], WEB_KEY)
  }

  function SetPin(lines: seq<EnvLine>, pin: string): seq<EnvLine> {
    RepinAll(lines, pin) + if AssignsPin(lines) then [] else [KV(WEB_KEY, pin)]
  }

  /** The writer's loop over the lines it read. */
  method WritePin(original: seq<EnvLine>, pin: string) returns (lines: seq<EnvLine>)
    ensures lines == SetPin(original, pin)
  {
    lines := original;
    var replaced := false;
    for i := 0 to |original|
      invariant |lines| == |original|
      invariant forall j :: 0 <= j < i ==> lines[j] == Repinned(original[j], pin)
      invariant forall j :: i <= j < |lines| ==> lines[j] == original[j]
      invariant replaced <==> exists j :: 0 <= j < i && Assigns(original[j], WEB_KEY)
    {
      if lines[i].isKV && lines[i].key == WEB_KEY {
        lines := lines[i := KV(WEB_KEY, pin)];
        replaced := true;
      }
    }
    assert lines == RepinAll(original, pin);
    if !replaced {
      lines := lines + [KV(WEB_KEY, pin)];
    }
  }

  lemma {:induction false} RepinnedValues(lines: seq<EnvLine>, pin: string)
    ensures Values(RepinAll(lines, pin)) == if AssignsPin(lines) then Values(lines)[WEB_KEY := pin] else Values(lines)
  {
    if lines != [] {
      var n := |lines| - 1;
      RepinnedValues(lines[..n], pin);
      assert RepinAll(lines, pin) == RepinAll(lines[..n], pin) + [Repinned(lines[n], pin)];
      ValuesGrow(RepinAll(lines[..n], pin), Repinned(lines[n], pin));
      ValuesGrow(lines[..n], lines[n]);
      assert lines == lines[..n] + [lines[n]];
      assert AssignsPin(lines) <==> AssignsPin(lines[..n]) || Assigns(lines[n], WEB_KEY) by {
        if AssignsPin(lines[..n]) {
          var i :| 0 <= i < n && Assigns(lines[..n][i], WEB_KEY);
          assert Assigns(lines[i], WEB_KEY);
        }
        if AssignsPin(lines) && !Assigns(lines[n], WEB_KEY) {
          var i :| 0 <= i < |lines| && Assigns(lines[i], WEB_KEY);
          assert Assigns(lines[..n][i], WEB_KEY);
        }
      }
    }
  }

  /** The writer changes the web pin and nothing else: not another value, and not
      a byte of a line that assigns another key. */
  lemma OnlyThePinChanges(lines: seq<EnvLine>, pin: string)
    requires pin != ""
    ensures Values(SetPin(lines, pin)) == Values(lines)[WEB_KEY := pin]
    ensures Pin(SetPin(lines, pin)) == pin
    ensures forall i :: 0 <= i < |lines| && !Assigns(lines[i], WEB_KEY) ==> SetPin(lines, pin)[i] == lines[i]
    ensures |SetPin(lines, pin)| <= |lines| + 1
  {
    RepinnedValues(lines, pin);
    if AssignsPin(lines) {
      assert SetPin(lines, pin) == RepinAll(lines, pin);
    } else {
      ValuesGrow(RepinAll(lines, pin), KV(WEB_KEY, pin));
    }
  }

  // ------------------------------------------------------------ The protocol

  type Env = seq<EnvLine>

  datatype Stage = Prepared | EnvUpdated

  datatype PC =
    | CheckPin | WriteJournal | SetEnvPin | Advance | Recreate | VerifyImage | Clear
    | RepairLookup | RepairCheckOld | RepairRecreate | RepairVerify | RepairClear | RepairRefused
    | Idle

  /** `image` is the pin the running container was created from. */
  datatype Site = Site(env: Env, image: string, journal: Option<Stage>, pc: PC)

  datatype Origin = Origin(env: Env, image: string, approved: string, expected: string)

  datatype Choice = Choice(ok: bool, outcome: WriteOutcome, effect: bool)

  datatype Event = Act(ch: Choice) | StartRepair | Restart

  function Initial(o: Origin): Site {
    Site(o.env, o.image, None, CheckPin)
  }

  function Recreated(s: Site, ch: Choice, next: PC): Site {
    s.(image := if ch.ok || ch.effect then Pin(s.env) else s.image, pc := if ch.ok then next else Idle)
  }

  function Removed(s: Site, ch: Choice): Site {
    s.(journal := if Visible(ch.outcome) then None else s.journal, pc := Idle)
  }

  function Deploy(o: Origin, s: Site, ch: Choice): Site {
    match s.pc
    case CheckPin => s.(pc := if ch.ok && Pin(s.env) == o.expected then WriteJournal else Idle)
    case WriteJournal =>
      s.(journal := if Visible(ch.outcome) then Some(Prepared) else None,
         pc := if ch.outcome.Persisted? then SetEnvPin else Idle)
    case SetEnvPin =>
      s.(env := if ch.ok && Visible(ch.outcome) then SetPin(s.env, o.approved) else s.env,
         pc := if ch.ok && ch.outcome.Persisted? then Advance else Idle)
    case Advance =>
      s.(journal := if Visible(ch.outcome) then Some(EnvUpdated) else s.journal,
         pc := if ch.outcome.Persisted? then Recreate else Idle)
    case Recreate => Recreated(s, ch, VerifyImage)
    case VerifyImage => s.(pc := if ch.ok && s.image == o.approved then Clear else Idle)
    case Clear => Removed(s, ch)
    case _ => s
  }

  function Repair(o: Origin, s: Site, ch: Choice): Site {
    match s.pc
    case RepairLookup =>
      s.(pc :=
        if !ch.ok then Idle
        else if Pin(s.env) == o.expected && Pin(s.env) != o.approved && s.journal == Some(Prepared) then RepairCheckOld
        else if Pin(s.env) != o.approved then RepairRefused
        else RepairRecreate)
    case RepairCheckOld => s.(pc := if ch.ok && s.image == Pin(s.env) then RepairClear else Idle)
    case RepairRecreate => Recreated(s, ch, RepairVerify)
    case RepairVerify => s.(pc := if ch.ok && s.image == o.approved then RepairClear else Idle)
    case RepairClear => Removed(s, ch)
    case RepairRefused => s.(pc := Idle)
    case _ => s
  }

  predicate Repairing(pc: PC) {
    pc.RepairLookup? || pc.RepairCheckOld? || pc.RepairRecreate? || pc.RepairVerify? || pc.RepairClear?
    || pc.RepairRefused?
  }

  function Apply(o: Origin, s: Site, e: Event): Site {
    match e
    case Act(ch) => if Repairing(s.pc) then Repair(o, s, ch) else Deploy(o, s, ch)
    case StartRepair => if s.pc.Idle? && s.journal.Some? then s.(pc := RepairLookup) else s
    case Restart => s.(pc := Idle)
  }

  function Run(o: Origin, s: Site, events: seq<Event>): Site
    decreases |events|
  {
    if events == [] then s else Run(o, Apply(o, s, events[0]), events[1..])
  }

  /** The running image is the env's pin, and that is one of the two agreed on. */
  predicate Settled(o: Origin, s: Site) {
    s.image == Pin(s.env) && (Pin(s.env) == o.approved || Pin(s.env) == o.expected)
  }

  predicate Untouched(o: Origin, s: Site) {
    s.env == o.env && s.image == o.image
  }

  predicate Pinned(o: Origin, s: Site) {
    s.env == SetPin(o.env, o.approved)
  }

  predicate Inv(o: Origin, s: Site) {
    && (s.env == o.env || Pinned(o, s))
    && (match s.journal
        case None => Untouched(o, s) || Settled(o, s)
        case Some(stage) =>
          && Pin(o.env) == o.expected
          && (stage.EnvUpdated? ==> Pinned(o, s)))
    && (match s.pc
        case CheckPin => s.journal.None? && Untouched(o, s)
        case WriteJournal => s.journal.None? && Untouched(o, s) && Pin(o.env) == o.expected
        case SetEnvPin => s.journal == Some(Prepared)
        case Advance => s.journal.Some? && Pinned(o, s)
        case Recreate | VerifyImage => s.journal.Some? && Pinned(o, s)
        case Clear => s.journal.Some? && Settled(o, s)
        case RepairLookup => s.journal.Some?
        case RepairCheckOld => s.journal.Some? && Pin(s.env) == o.expected
        case RepairRecreate | RepairVerify => s.journal.Some? && Pin(s.env) == o.approved
        case RepairClear => s.journal.Some? && Settled(o, s)
        case RepairRefused => false
        case Idle => true)
  }

  lemma PinsAre(o: Origin, s: Site)
    requires o.approved != "" && Pinned(o, s)
    ensures Pin(s.env) == o.approved
  {
    OnlyThePinChanges(o.env, o.approved);
  }

  lemma SetAgain(lines: seq<EnvLine>, pin: string)
    ensures SetPin(SetPin(lines, pin), pin) == SetPin(lines, pin)
  {
    var once := SetPin(lines, pin);
    assert AssignsPin(once) by {
      if AssignsPin(lines) {
        var i :| 0 <= i < |lines| && Assigns(lines[i], WEB_KEY);
        assert Assigns(once[i], WEB_KEY);
      } else {
        assert Assigns(once[|lines|], WEB_KEY);
      }
    }
    assert RepinAll(once, pin) == once;
  }

  lemma DeployKeeps(o: Origin, s: Site, ch: Choice)
    requires o.approved != "" && Inv(o, s) && !Repairing(s.pc)
    ensures Inv(o, Deploy(o, s, ch))
  {
    if Pinned(o, s) { PinsAre(o, s); }
    SetAgain(o.env, o.approved);
  }

  lemma RepairKeeps(o: Origin, s: Site, ch: Choice)
    requires o.approved != "" && Inv(o, s) && Repairing(s.pc)
    ensures Inv(o, Repair(o, s, ch))
  {
    if Pinned(o, s) { PinsAre(o, s); }
  }

  lemma {:induction false} RunKeeps(o: Origin, s: Site, events: seq<Event>)
    requires o.approved != "" && Inv(o, s)
    ensures Inv(o, Run(o, s, events))
    decreases |events|
  {
    if events != [] {
      var e := events[0];
      if e.Act? {
        if Repairing(s.pc) { RepairKeeps(o, s, e.ch); } else { DeployKeeps(o, s, e.ch); }
      }
      RunKeeps(o, Apply(o, s, e), events[1..]);
    }
  }

  /** Whatever crashes and repairs there were: with no journal left, either
      nothing was done, or the running image is the env's pin and that is the
      approved or the expected one; the env differs from the original in the pin
      alone; and no repair ever finds a pin that is neither. */
  lemma WebDeploysSettle(o: Origin, events: seq<Event>)
    requires o.approved != ""
    ensures var s := Run(o, Initial(o), events);
      && (s.journal.None? ==> Untouched(o, s) || Settled(o, s))
      && (s.env == o.env || Values(s.env) == Values(o.env)[WEB_KEY := o.approved])
      && !s.pc.RepairRefused?
  {
    RunKeeps(o, Initial(o), events);
    OnlyThePinChanges(o.env, o.approved);
  }

  /** A deploy or repair that clears its journal leaves image and pin agreeing. */
  lemma ClearingMeansSettled(o: Origin, s: Site, ch: Choice)
    requires o.approved != "" && Inv(o, s) && s.journal.Some? && Apply(o, s, Act(ch)).journal.None?
    ensures Settled(o, Apply(o, s, Act(ch)))
  {
  }

  // -------------------------------------------------- When a repair succeeds

  const GOOD := Choice(true, Persisted, false)

  function Acts(o: Origin, s: Site, n: nat): Site
    decreases n
  {
    if n == 0 then s else Acts(o, Apply(o, s, Act(GOOD)), n - 1)
  }

  /** A repair in which every call succeeds; the steps left over change nothing. */
  function GoodRepair(o: Origin, s: Site): Site {
    Acts(o, Apply(o, s, StartRepair), 4)
  }

  lemma {:induction false} IdleStays(o: Origin, s: Site, n: nat)
    requires s.pc.Idle?
    ensures Acts(o, s, n) == s
    decreases n
  {
    if n > 0 { IdleStays(o, s, n - 1); }
  }

  lemma GoodRecreation(o: Origin, s: Site)
    requires s.pc.RepairRecreate? && Pin(s.env) == o.approved
    ensures Acts(o, s, 3) == s.(image := o.approved, journal := None, pc := Idle)
  {
    var a := s.(image := o.approved, pc := RepairVerify);
    var b := a.(pc := RepairClear);
    assert Acts(o, s, 3) == Acts(o, a, 2) == Acts(o, b, 1) == Acts(o, b.(journal := None, pc := Idle), 0);
  }

  lemma GoodCheck(o: Origin, s: Site)
    requires s.pc.RepairCheckOld?
    ensures Acts(o, s, 3) == if s.image == Pin(s.env) then s.(journal := None, pc := Idle) else s.(pc := Idle)
  {
    if s.image == Pin(s.env) {
      var a := s.(pc := RepairClear);
      var b := a.(journal := None, pc := Idle);
      assert Acts(o, s, 3) == Acts(o, a, 2) == Acts(o, b, 1);
      IdleStays(o, b, 1);
    } else {
      assert Acts(o, s, 3) == Acts(o, s.(pc := Idle), 2);
      IdleStays(o, s.(pc := Idle), 2);
    }
  }

  /** A repair in which every call succeeds clears the journal exactly when the
      env already has the approved pin, or the running image is the expected one:
      before the pin is written it only looks, and never recreates the container. */
  lemma GoodRepairClearsIff(o: Origin, s: Site)
    requires o.approved != "" && Inv(o, s) && s.pc.Idle? && s.journal.Some?
    ensures GoodRepair(o, s).journal.None? <==> Pin(s.env) == o.approved || s.image == o.expected
    ensures GoodRepair(o, s).journal.None? ==> Settled(o, GoodRepair(o, s))
    ensures GoodRepair(o, s).journal.Some? ==> GoodRepair(o, s) == s
  {
    if Pinned(o, s) { PinsAre(o, s); }
    var a := s.(pc := if Pin(s.env) == o.approved then RepairRecreate else RepairCheckOld);
    assert Apply(o, s.(pc := RepairLookup), Act(GOOD)) == a;
    assert GoodRepair(o, s) == Acts(o, a, 3);
    if Pin(s.env) == o.approved { GoodRecreation(o, a); } else { GoodCheck(o, a); }
  }

  /** The pin was not written yet, and what runs is not what the pin says. */
  predicate Stranded(o: Origin, s: Site) {
    && s.journal == Some(Prepared) && Pin(s.env) == o.expected && Pin(s.env) != o.approved && s.image != o.expected
    && (s.pc.Idle? || s.pc.RepairLookup? || s.pc.RepairCheckOld?)
  }

  lemma StrandedStep(o: Origin, s: Site, e: Event)
    requires Stranded(o, s)
    ensures Stranded(o, Apply(o, s, e)) && Apply(o, s, e) == s.(pc := Apply(o, s, e).pc)
  {
  }

  /** No repair and no restart ever gets out of it. */
  lemma {:induction false} MismatchStrandsTheJournal(o: Origin, s: Site, events: seq<Event>)
    requires Stranded(o, s)
    ensures var t := Run(o, s, events); Stranded(o, t) && t == s.(pc := t.pc)
    decreases |events|
  {
    if events != [] {
      StrandedStep(o, s, events[0]);
      MismatchStrandsTheJournal(o, Apply(o, s, events[0]), events[1..]);
    }
  }

  /** And a deploy gets there: it checks the pin before it starts, but not what
      runs, so a container that had drifted from its pin is noticed too late. */
  lemma DriftedImageStrands(o: Origin)
    requires Pin(o.env) == o.expected && o.expected != o.approved && o.image != o.expected
    ensures Stranded(o, Run(o, Initial(o), [Act(GOOD), Act(GOOD), Restart]))
  {
    var a := Initial(o).(pc := WriteJournal);
    var b := a.(journal := Some(Prepared), pc := SetEnvPin);
    assert [Act(GOOD), Act(GOOD), Restart][1..] == [Act(GOOD), Restart] && [Act(GOOD), Restart][1..] == [Restart];
    assert Run(o, a, [Act(GOOD), Restart]) == Run(o, b, [Restart]) == Run(o, b.(pc := Idle), []);
  }
}
