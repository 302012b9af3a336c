/** Server identities, the registry entry derived from a server's env file, and
    the canonicalising reader of the shared registry assignment. */
module Registry {
  import opened Lifecycle
  import opened EnvFile

  // ------------------------------------------------------------ Identities

  const MAX_ID_LENGTH := 48
  const SHARED_PROJECT := "opensamguk-shared"

  function LowerChar(c: char): char {
    if 'A' <= c <= 'Z' then (c as int - 'A' as int + 'a' as int) as char else c
  }

  function Lower(s: string): (t: string)
    ensures |t| == |s|
  {
    seq(|s|, i requires 0 <= i < |s| => LowerChar(s[i]))
  }

  function Project(id: string): string {
    "opensamguk-s" + id
  }

  /** `reserved` holds the game routes and reserved public ids. */
  function NormalizeId(raw: string, reserved: set<string>): Option<string> {
    var id := Lower(raw);
    if raw == "" || (exists i :: 0 <= i < |raw| && !IsAlphanumeric(raw[i])) then None
    else if |id| > MAX_ID_LENGTH || id in reserved || Project(id) == SHARED_PROJECT then None
    else Some(id)
  }

  predicate CanonicalId(id: string, reserved: set<string>) {
    && 0 < |id| <= MAX_ID_LENGTH
    && (forall i :: 0 <= i < |id| ==> '0' <= id[i] <= '9' || 'a' <= id[i] <= 'z')
    && id !in reserved
    && id != "hared"
  }

  /** An id is accepted exactly when its lower-case form is a canonical id, and
      canonical ids are the ones that stay as they are. */
  lemma NormalizedIdsAreCanonical(raw: string, reserved: set<string>)
    ensures NormalizeId(raw, reserved).Some? <==>
            CanonicalId(Lower(raw), reserved) && forall i :: 0 <= i < |raw| ==> IsAlphanumeric(raw[i])
    ensures NormalizeId(raw, reserved).Some? ==> NormalizeId(raw, reserved).value == Lower(raw)
    ensures CanonicalId(raw, reserved) <==> NormalizeId(raw, reserved) == Some(raw)
  {
    var id := Lower(raw);
    ProjectsDiffer(id);
    assert forall i :: 0 <= i < |raw| ==> id[i] == LowerChar(raw[i]);
    if CanonicalId(raw, reserved) {
      assert Lower(raw) == raw;
    }
  }

  /** The one id whose project would be the shared stack's is refused, so no
      accepted server's `down` can reach the shared stack. */
  lemma ProjectsDiffer(id: string)
    ensures Project(id) == SHARED_PROJECT <==> id == "hared"
  {
    assert SHARED_PROJECT == "opensamguk-s" + "hared";
    assert Project(id)[|"opensamguk-s"|..] == id;
    assert SHARED_PROJECT[|"opensamguk-s"|..] == "hared";
  }

  // -------------------------------------------------------- Derived entries

  datatype Entry = Entry(
    id: string,
    name: string,
    generation: int,
    scenarioCode: string,
    gameApiUrl: string,
    gameEngineUrl: string,
    deployProject: string,
    env: map<string, string>,
    repairRequired: bool)

  datatype Urls = Urls(api: string, engine: string)

  function Get(values: map<string, string>, key: string): string {
    if key in values then Trim(values[key]) else ""
  }

  function Digits(s: string): Option<nat> {
    if s == "" then None
    else if !('0' <= s[|s| - 1] <= '9') then None
    else
      var unit := s[|s| - 1] as int - '0' as int;
      if |s| == 1 then Some(unit)
      else
        var rest := Digits(s[..|s| - 1]);
        if rest.None? then None else Some(rest.value * 10 + unit)
  }

  const MAX_INT64: int := 0x7FFF_FFFF_FFFF_FFFF

  /** A non-negative decimal within 64 bits, with an optional sign. */
  function ParseGeneration(raw: string): Option<nat> {
    var signed := raw != "" && (raw[0] == '+' || raw[0] == '-');
    var digits := Digits(if signed then raw[1..] else raw);
    if digits.None? || digits.value > MAX_INT64 then None
    else if signed && raw[0] == '-' && digits.value != 0 then None
    else digits
  }

  const SNAPSHOT_KEYS: set<string> := {
    "RESET_MAXGENERAL", "RESET_FIRST_TURN", "IMAGE_TAG", "GAME_API_PORT", "WEB_GAME_PORT", "WEB_GAME_TAG",
    "TURN_PROFILE_NAME", "SCENARIO_SEED_ENABLED", "SCENARIO_CODE", "SCENARIO_LOOKUP_DIR", "SERVER_NAME",
    "SERVER_GENERATION", "GAME_API_URL", "GATEWAY_API_URL", "RESET_TURNTERM", "RESET_SYNC", "RESET_FICTION",
    "RESET_EXTEND", "RESET_BLOCK_GENERAL_CREATE", "RESET_NPCMODE", "RESET_SHOW_IMG_LEVEL",
    "RESET_AUTORUN_USER_OPTIONS", "RESET_AUTORUN_USER_MINUTES", "RESET_JOIN_MODE", "RESET_TOURNAMENT_TRIG",
    "RESET_RESERVE_OPEN", "RESET_PRE_RESERVE_OPEN"}

  function Snapshot(values: map<string, string>): map<string, string> {
    map k | k in values && k in SNAPSHOT_KEYS :: values[k]
  }

  function OrElse(value: string, otherwise: string): string {
    if value != "" then value else otherwise
  }

  function EntryFromEnv(id: string, values: map<string, string>, current: Entry, urls: Urls): Entry {
    var generation := ParseGeneration(Get(values, "SERVER_GENERATION"));
    Entry(
      id,
      OrElse(OrElse(Get(values, "SERVER_NAME"), current.name), id),
      if generation.Some? then generation.value else current.generation,
      OrElse(Get(values, "SCENARIO_CODE"), current.scenarioCode),
      OrElse(OrElse(Get(values, "GAME_API_URL"), current.gameApiUrl), urls.api),
      OrElse(current.gameEngineUrl, urls.engine),
      Project(id),
      Snapshot(values),
      current.repairRequired)
  }

  /** Deriving twice is deriving once, from whatever entry one starts, and the
      repair flag passes through untouched. */
  lemma DerivingIsStable(id: string, values: map<string, string>, current: Entry, urls: Urls, repair: bool)
    ensures var e := EntryFromEnv(id, values, current, urls);
      && EntryFromEnv(id, values, e, urls) == e
      && EntryFromEnv(id, values, e.(repairRequired := repair), urls) == e.(repairRequired := repair)
      && EntryFromEnv(id, values, current.(repairRequired := repair), urls) == e.(repairRequired := repair)
  {
  }

  // ------------------------------------------------------- Canonical entries

  datatype Result<T> = Ok(value: T) | Err

  function Canonical(entry: Entry, id: string): Entry {
    entry.(id := id, deployProject := Project(id), env := Snapshot(entry.env))
  }

  predicate Acceptable(entry: Entry, reserved: set<string>) {
    && NormalizeId(entry.id, reserved).Some?
    && (entry.deployProject == "" || Lower(entry.deployProject) == Project(Lower(entry.id)))
  }

  predicate Distinct(entries: seq<Entry>) {
    forall i, j :: 0 <= i < j < |entries| ==> Lower(entries[i].id) != Lower(entries[j].id)
  }

  predicate AllAcceptable(entries: seq<Entry>, reserved: set<string>) {
    forall i :: 0 <= i < |entries| ==> Acceptable(entries[i], reserved)
  }

  function Canonicals(entries: seq<Entry>): seq<Entry> {
    seq(|entries|, i requires 0 <= i < |entries| => Canonical(entries[i], Lower(entries[i].id)))
  }

  /** The reader's loop: it stops at the first bad or repeated id. */
  method CanonicalEntries(entries: seq<Entry>, reserved: set<string>) returns (r: Result<seq<Entry>>)
    ensures r.Ok? <==> AllAcceptable(entries, reserved) && Distinct(entries)
    ensures r.Ok? ==> r.value == Canonicals(entries)
  {
    var canonical: seq<Entry> := [];
    var seen: set<string> := {};
    for i := 0 to |entries|
      invariant AllAcceptable(entries[..i], reserved) && Distinct(entries[..i])
      invariant seen == set j | 0 <= j < i :: Lower(entries[j].id)
      invariant canonical == Canonicals(entries)[..i]
    {
      NormalizedIdsAreCanonical(entries[i].id, reserved);
      var id := NormalizeId(entries[i].id, reserved);
      if
        id.None? || id.value in seen
        || (entries[i].deployProject != "" && Lower(entries[i].deployProject) != Project(id.value))
      {
        return Err;
      }
      seen := seen + {id.value};
      canonical := canonical + [Canonical(entries[i], id.value)];
    }
    assert entries[..|entries|] == entries;
    return Ok(canonical);
  }

  lemma LowerTwice(s: string)
    ensures Lower(Lower(s)) == Lower(s)
  {
  }

  lemma SnapshotTwice(values: map<string, string>)
    ensures Snapshot(Snapshot(values)) == Snapshot(values)
  {
  }

  /** Canonical entries are accepted as they stand. */
  lemma CanonicalsAreCanonical(entries: seq<Entry>, reserved: set<string>)
    requires AllAcceptable(entries, reserved) && Distinct(entries)
    ensures var c := Canonicals(entries);
      AllAcceptable(c, reserved) && Distinct(c) && Canonicals(c) == c
  {
    var c := Canonicals(entries);
    forall i | 0 <= i < |c|
      ensures Acceptable(c[i], reserved) && Canonical(c[i], Lower(c[i].id)) == c[i]
      ensures c[i].id == Lower(entries[i].id) && Lower(c[i].id) == c[i].id
    {
      LowerTwice(entries[i].id);
      SnapshotTwice(entries[i].env);
      NormalizedIdsAreCanonical(entries[i].id, reserved);
      NormalizedIdsAreCanonical(c[i].id, reserved);
      ProjectIsLower(c[i].id, reserved);
    }
  }

  lemma ProjectIsLower(id: string, reserved: set<string>)
    requires CanonicalId(id, reserved)
    ensures Lower(Project(id)) == Project(id)
  {
    var p := Project(id);
    forall i | 0 <= i < |p| ensures LowerChar(p[i]) == p[i] {
      if i >= |"opensamguk-s"| { assert p[i] == id[i - |"opensamguk-s"|]; }
    }
  }

  // ------------------------------------------------------- The shared file

  /** A line of the shared env file: not the registry's, or the registry's with
      no value, with a document, or with one that does not parse. */
  datatype SharedLine =
    | Other(line: EnvLine)
    | Blank
    | Document(entries: seq<Entry>, unknownFields: bool)
    | Broken

  datatype Parsed = Parsed(entries: seq<Entry>, assignments: nat, rewrite: bool)

  function ParseRegistry(lines: seq<SharedLine>): Result<Parsed> {
    if lines == [] then Ok(Parsed([], 0, false))
    else
      var before := ParseRegistry(lines[..|lines| - 1]);
      if before.Err? then Err
      else
        var p := before.value;
        match lines[|lines| - 1]
        case Other(_) => before
        case Blank => Ok(Parsed([], p.assignments + 1, true))
        case Document(entries, unknown) => Ok(Parsed(entries, p.assignments + 1, p.rewrite || unknown))
        case Broken => Err
  }

  function Replaced(lines: seq<SharedLine>, document: SharedLine, done: bool): seq<SharedLine> {
    if lines == [] then (if done then [] else [document])
    else if lines[0].Other? then [lines[0]] + Replaced(lines[1..], document, done)
    else if done then Replaced(lines[1..], document, true)
    else [document] + Replaced(lines[1..], document, true)
  }

  /** The entries a reader gets and the file it leaves behind. */
  function Read(lines: seq<SharedLine>, reserved: set<string>): Result<(seq<Entry>, seq<SharedLine>)> {
    match ParseRegistry(lines)
    case Err => Err
    case Ok(p) =>
      if !AllAcceptable(p.entries, reserved) || !Distinct(p.entries) then Err
      else
        var canonical := Canonicals(p.entries);
        if p.rewrite || p.assignments > 1 || p.entries != canonical then
          Ok((canonical, Replaced(lines, Document(canonical, false), false)))
        else
          Ok((canonical, lines))
  }

  function Others(lines: seq<SharedLine>): seq<SharedLine> {
    if lines == [] then [] else (if lines[0].Other? then [lines[0]] else []) + Others(lines[1..])
  }

  lemma {:induction false} ReplacedKeepsOthers(lines: seq<SharedLine>, document: SharedLine, done: bool)
    requires !document.Other?
    ensures Others(Replaced(lines, document, done)) == Others(lines)
  {
    if lines != [] {
      ReplacedKeepsOthers(lines[1..], document, done);
      ReplacedKeepsOthers(lines[1..], document, true);
      var rest := Replaced(lines[1..], document, if lines[0].Other? then done else true);
      if lines[0].Other? || !done {
        var head := if lines[0].Other? then lines[0] else document;
        assert Replaced(lines, document, done) == [head] + rest;
        assert ([head] + rest)[1..] == rest;
      }
    }
  }

  predicate OnlyOthers(lines: seq<SharedLine>) {
    forall i :: 0 <= i < |lines| ==> lines[i].Other?
  }

  lemma {:induction false} ParsingOthers(lines: seq<SharedLine>, more: seq<SharedLine>)
    requires OnlyOthers(more)
    ensures ParseRegistry(lines + more) == ParseRegistry(lines)
  {
    if more == [] {
      assert lines + more == lines;
    } else {
      ParsingOthers(lines, more[..|more| - 1]);
      assert (lines + more)[..|lines + more| - 1] == lines + more[..|more| - 1];
    }
  }

  lemma {:induction false} ReplacedIsOneDocument(lines: seq<SharedLine>, document: SharedLine)
    requires document.Document?
    ensures exists a, b :: Replaced(lines, document, false) == a + [document] + b
                           && OnlyOthers(a) && OnlyOthers(b)
  {
    assert OnlyOthers([]);
    if lines == [] {
      assert Replaced(lines, document, false) == [] + [document] + [];
    } else if lines[0].Other? {
      ReplacedIsOneDocument(lines[1..], document);
      var a, b :| Replaced(lines[1..], document, false) == a + [document] + b
                  && OnlyOthers(a) && OnlyOthers(b);
      assert Replaced(lines, document, false) == ([lines[0]] + a) + [document] + b;
      assert OnlyOthers([lines[0]] + a);
    } else {
      ReplacedRestIsOthers(lines[1..], document);
      assert Replaced(lines, document, false) == [] + [document] + Replaced(lines[1..], document, true);
    }
  }

  lemma {:induction false} ReplacedRestIsOthers(lines: seq<SharedLine>, document: SharedLine)
    ensures OnlyOthers(Replaced(lines, document, true))
  {
    if lines != [] {
      ReplacedRestIsOthers(lines[1..], document);
    }
  }

  lemma ReplacedParses(lines: seq<SharedLine>, entries: seq<Entry>)
    ensures ParseRegistry(Replaced(lines, Document(entries, false), false)) == Ok(Parsed(entries, 1, false))
  {
    var document := Document(entries, false);
    ReplacedIsOneDocument(lines, document);
    var a, b :| Replaced(lines, document, false) == a + [document] + b
                && OnlyOthers(a) && OnlyOthers(b);
    ParsingOthers([], a);
    assert [] + a == a;
    assert (a + [document])[..|a + [document]| - 1] == a;
    ParsingOthers(a + [document], b);
  }

  /** One read is enough: a second gives the same entries and changes nothing,
      and no line but the registry's is ever touched. */
  lemma ReadOnce(lines: seq<SharedLine>, reserved: set<string>)
    requires Read(lines, reserved).Ok?
    ensures var (entries, after) := Read(lines, reserved).value;
      && Read(after, reserved) == Ok((entries, after))
      && Others(after) == Others(lines)
      && (forall i :: 0 <= i < |entries| ==>
            CanonicalId(entries[i].id, reserved) && entries[i].deployProject == Project(entries[i].id))
  {
    var p := ParseRegistry(lines).value;
    CanonicalsAreCanonical(p.entries, reserved);
    var canonical := Canonicals(p.entries);
    forall i | 0 <= i < |canonical|
      ensures CanonicalId(canonical[i].id, reserved) && canonical[i].deployProject == Project(canonical[i].id)
    {
      NormalizedIdsAreCanonical(p.entries[i].id, reserved);
    }
    ReplacedParses(lines, canonical);
    ReplacedKeepsOthers(lines, Document(canonical, false), false);
  }
}
