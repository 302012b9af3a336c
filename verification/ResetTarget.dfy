/** Normalising what a reset is asked to do: settings, image and storage pins. */
module ResetTarget {
  import opened Lifecycle
  import opened EnvFile
  import EnvPatch
  import Registry

  /** The env keys a reset may write; any other is refused. */
  datatype Key =
    | PostgresImage | RedisImage | ServerName | MaxGeneral | FirstTurn | LookupDir | ImageTag | WebGameTag
    | ScenarioCode | SeedEnabled | Generation | TurnTerm | Sync | Fiction | Extend | BlockGeneralCreate | NpcMode
    | ShowImgLevel | AutorunUserOptions | AutorunUserMinutes | JoinMode | TournamentTrig | ReserveOpen | PreReserveOpen
    | Unsupported(name: string)

  function Name(key: Key): string {
    match key
    case PostgresImage => "GAME_POSTGRES_IMAGE"
    case RedisImage => "GAME_REDIS_IMAGE"
    case ServerName => "SERVER_NAME"
    case MaxGeneral => "RESET_MAXGENERAL"
    case FirstTurn => "RESET_FIRST_TURN"
    case LookupDir => "SCENARIO_LOOKUP_DIR"
    case ImageTag => "IMAGE_TAG"
    case WebGameTag => "WEB_GAME_TAG"
    case ScenarioCode => "SCENARIO_CODE"
    case SeedEnabled => "SCENARIO_SEED_ENABLED"
    case Generation => "SERVER_GENERATION"
    case TurnTerm => "RESET_TURNTERM"
    case Sync => "RESET_SYNC"
    case Fiction => "RESET_FICTION"
    case Extend => "RESET_EXTEND"
    case BlockGeneralCreate => "RESET_BLOCK_GENERAL_CREATE"
    case NpcMode => "RESET_NPCMODE"
    case ShowImgLevel => "RESET_SHOW_IMG_LEVEL"
    case AutorunUserOptions => "RESET_AUTORUN_USER_OPTIONS"
    case AutorunUserMinutes => "RESET_AUTORUN_USER_MINUTES"
    case JoinMode => "RESET_JOIN_MODE"
    case TournamentTrig => "RESET_TOURNAMENT_TRIG"
    case ReserveOpen => "RESET_RESERVE_OPEN"
    case PreReserveOpen => "RESET_PRE_RESERVE_OPEN"
    case Unsupported(name) => name
  }

  datatype Service = GameApi | GameEngine | WebGame | GamePostgres | GameRedis | UnknownService(name: string)

  type Updates = map<Key, string>
  type Pins = map<Service, string>

  datatype Target = Target(storage: Pins, scenario: string, generation: int, seed: bool, updates: Updates, images: Pins)

  // ------------------------------------------------------------- Conditions

  function Get<K>(m: map<K, string>, key: K): string {
    if key in m then m[key] else ""
  }

  predicate IsControl(c: char) {
    c < ' ' || '\U{7F}' <= c <= '\U{9F}'
  }

  predicate AllDigits(s: string) {
    s != "" && forall i :: 0 <= i < |s| ==> '0' <= s[i] <= '9'
  }

  predicate SettingOk(key: Key, value: string) {
    match key
    case ServerName =>
      value != "" && Trim(value) == value && |value| <= 100 && forall i :: 0 <= i < |value| ==> !IsControl(value[i])
    case MaxGeneral =>
      AllDigits(value) && Registry.Digits(value).Some? && 1 <= Registry.Digits(value).value <= 9999
    case FirstTurn => value == "immediate" || value == "scheduled"
    case LookupDir => value == "" || value == "/data/scenarios"
    case _ => true
  }

  /** The explicit settings are checked as given, before anything is trimmed. */
  predicate SettingsOk(updates: Updates) {
    forall k :: k in updates ==> SettingOk(k, updates[k])
  }

  predicate IsSafeChar(c: char) {
    IsAlphanumeric(c) || c == '_' || c == '-' || c == ':' || c == '.'
  }

  predicate IsSafeToken(s: string) {
    s != "" && forall i :: 0 <= i < |s| ==> IsSafeChar(s[i])
  }

  predicate OneLine(s: string) {
    '\r' !in s && '\n' !in s
  }

  predicate UpdateOk(key: Key, value: string) {
    !key.Unsupported? && OneLine(Trim(value)) && (key.ImageTag? || key.WebGameTag? ==> IsHex(Trim(value), 40))
  }

  predicate UpdatesOk(updates: Updates) {
    forall k :: k in updates ==> UpdateOk(k, updates[k])
  }

  predicate IsDigest(s: string) {
    |s| == 71 && s[..7] == "sha256:" && IsHex(s[7..], 64)
  }

  predicate PinsFor(pins: Pins, services: set<Service>) {
    |pins| == |services| && forall s :: s in services ==> IsDigest(Get(pins, s))
  }

  function Decimal(n: nat): string {
    if n < 10 then ["0123456789"[n]] else Decimal(n / 10) + ["0123456789"[n % 10]]
  }

  function Trimmed(updates: Updates): Updates {
    map k | k in updates :: Trim(updates[k])
  }

  function Canonical(scenario: string, generation: nat): Updates {
    map[ScenarioCode := scenario, SeedEnabled := "true", Generation := Decimal(generation)]
  }

  predicate Agrees(updates: Updates, wanted: Updates) {
    forall k :: k in wanted && k in updates ==> updates[k] == wanted[k]
  }

  predicate HasPins(t: Target) {
    ImageTag in t.updates || WebGameTag in t.updates || |t.images| != 0
  }

  // ------------------------------------------------------------ Normalising

  function NormalizeImages(t: Target): Option<Target> {
    if !HasPins(t) then Some(t)
    else if !IsHex(Get(t.updates, ImageTag), 40) || Get(t.updates, ImageTag) != Get(t.updates, WebGameTag)
    || !PinsFor(t.images, {GameApi, GameEngine, WebGame}) then None
    else Some(t)
  }

  function References(storage: Pins): Updates {
    map[PostgresImage := "postgres:16-alpine@" + Get(storage, GamePostgres),
        RedisImage := "redis:7-alpine@" + Get(storage, GameRedis)]
  }

  function NormalizeStorage(t: Target): Option<Target> {
    if |t.storage| == 0 && PostgresImage !in t.updates && RedisImage !in t.updates then Some(t)
    else if !PinsFor(t.storage, {GamePostgres, GameRedis}) || !HasPins(t)
    || !Agrees(t.updates, References(t.storage)) then None
    else Some(t.(updates := t.updates + References(t.storage)))
  }

  /** Settings, scenario, generation and updates are acceptable, and the three
      values a reset always sets do not contradict the updates. */
  predicate Acceptable(t: Target) {
    && SettingsOk(t.updates) && IsSafeToken(Trim(t.scenario)) && t.generation >= 0 && t.seed && UpdatesOk(t.updates)
    && Agrees(Trimmed(t.updates), Canonical(Trim(t.scenario), t.generation))
  }

  function Base(t: Target): Target
    requires t.generation >= 0
  {
    t.(scenario := Trim(t.scenario), updates := Trimmed(t.updates) + Canonical(Trim(t.scenario), t.generation))
  }

  function Pinned(t: Target): Option<Target> {
    if NormalizeImages(t).None? then None else NormalizeStorage(t)
  }

  function Normalize(t: Target): Option<Target> {
    if Acceptable(t) then Pinned(Base(t)) else None
  }

  predicate Legacy(t: Target) {
    |t.images| == 0 && HasPins(t)
  }

  function Tags(updates: Updates): Updates {
    map k | k in updates && (k == ImageTag || k == WebGameTag) :: Trim(updates[k])
  }

  function WithoutTags(t: Target): Target {
    t.(updates := t.updates - {ImageTag, WebGameTag})
  }

  /** Journals written before images were pinned stay readable. */
  function NormalizeJournal(t: Target): Option<Target> {
    if !Legacy(t) then Normalize(t)
    else
      var tags := Tags(t.updates);
      if exists k :: k in tags && !IsHex(tags[k], 40) then None
      else
        match Normalize(WithoutTags(t))
        case None => None
        case Some(u) => Some(u.(updates := u.updates + tags))
  }

  // ------------------------------------------------------- In-place storage

  /** The target as the storage normaliser edits it. */
  class EditableTarget {
    var storage: Pins
    var updates: Updates
    const images: Pins

    constructor (storage: Pins, updates: Updates, images: Pins)
      ensures this.storage == storage && this.updates == updates && this.images == images
    {
      this.storage := storage;
      this.updates := updates;
      this.images := images;
    }

    function Value(scenario: string, generation: int, seed: bool): Target
      reads this
    {
      Target(storage, scenario, generation, seed, updates, images)
    }

    /** Writes the reference of one service after the other; a conflict with the
        second leaves the first written, and the caller drops the target. */
    method NormalizeStorageInPlace(scenario: string, generation: int, seed: bool) returns (ok: bool)
      modifies this
      ensures ok <==> NormalizeStorage(old(Value(scenario, generation, seed))).Some?
      ensures ok ==> Value(scenario, generation, seed) == NormalizeStorage(old(Value(scenario, generation, seed))).value
    {
      if |storage| == 0 && PostgresImage !in updates && RedisImage !in updates {
        return true;
      }
      var pins := |storage| == 2 && IsDigest(Get(storage, GamePostgres)) && IsDigest(Get(storage, GameRedis));
      if !pins || !HasPins(Value(scenario, generation, seed)) {
        return false;
      }
      var services := [GamePostgres, GameRedis];
      var references := References(storage);
      ghost var before := updates;
      for i := 0 to 2
        invariant storage == old(storage)
        invariant i >= 1 ==> (PostgresImage in before ==> before[PostgresImage] == references[PostgresImage])
        invariant i >= 2 ==> (RedisImage in before ==> before[RedisImage] == references[RedisImage])
        invariant updates == if i == 0 then before else if i ==
            1 then before[PostgresImage := references[PostgresImage]] else before + references
      {
        var key := if services[i] == GameRedis then RedisImage else PostgresImage;
        if key in updates && updates[key] != references[key] {
          return false;
        }
        updates := updates[key := references[key]];
      }
      return true;
    }
  }

  // --------------------------------------------------------------- Trimming

  predicate TrimmedAlready(s: string) {
    s == "" || (!IsSpace(s[0]) && !IsSpace(s[|s| - 1]))
  }

  lemma {:induction false} TrimRightEnds(s: string)
    ensures TrimRight(s) == "" || !IsSpace(TrimRight(s)[|TrimRight(s)| - 1])
  {
    if s != "" && IsSpace(s[|s| - 1]) { TrimRightEnds(s[..|s| - 1]); }
  }

  lemma {:induction false} TrimLeftEnds(s: string)
    ensures TrimLeft(s) == "" || !IsSpace(TrimLeft(s)[0])
  {
    if s != "" && IsSpace(s[0]) { TrimLeftEnds(s[1..]); }
  }

  lemma TrimEnds(s: string)
    ensures TrimmedAlready(Trim(s))
    ensures TrimmedAlready(s) ==> Trim(s) == s
  {
    TrimLeftEnds(s);
    TrimRightEnds(TrimLeft(s));
    if TrimLeft(s) != "" { TrimRightKeepsFirst(TrimLeft(s)); }
  }

  lemma TrimTwice(s: string)
    ensures Trim(Trim(s)) == Trim(s)
  {
    TrimEnds(s);
    TrimEnds(Trim(s));
  }

  lemma {:induction false} DecimalDigits(n: nat)
    ensures AllDigits(Decimal(n))
  {
    if n >= 10 { DecimalDigits(n / 10); }
  }

  // ------------------------------------------------------------ Idempotence

  predicate Fine(updates: Updates) {
    SettingsOk(updates) && UpdatesOk(updates) && Trimmed(updates) == updates
  }

  /** What a normalised target looks like before its pins are considered. */
  predicate Basic(t: Target) {
    && Fine(t.updates) && IsSafeToken(t.scenario) && Trim(t.scenario) == t.scenario && t.generation >= 0 && t.seed
    && Includes(t.updates, Canonical(t.scenario, t.generation))
  }

  predicate Includes(updates: Updates, wanted: Updates) {
    forall k :: k in wanted ==> k in updates && updates[k] == wanted[k]
  }

  predicate Normal(t: Target) {
    Basic(t) && Pinned(t) == Some(t)
  }

  lemma BasicIsItsBase(t: Target)
    requires Basic(t)
    ensures Acceptable(t) && Base(t) == t
  {
    var wanted := Canonical(t.scenario, t.generation);
    assert t.updates + wanted == t.updates;
  }

  lemma SafeTokensAreTrimmed(s: string)
    requires IsSafeToken(s)
    ensures Trim(s) == s && OneLine(s)
  {
    TrimEnds(s);
  }

  predicate Stable(value: string) {
    Trim(value) == value && OneLine(value)
  }

  lemma CanonicalValuesAreStable(scenario: string, generation: nat)
    requires IsSafeToken(scenario)
    ensures Stable(scenario) && Stable("true") && Stable(Decimal(generation))
  {
    DecimalDigits(generation);
    SafeTokensAreTrimmed(scenario);
    SafeTokensAreTrimmed("true");
    SafeTokensAreTrimmed(Decimal(generation));
  }

  lemma StableIsFine(updates: Updates)
    requires forall k :: k in updates ==> Stable(updates[k]) && (k.ScenarioCode? || k.SeedEnabled? || k.Generation?)
    ensures Trimmed(updates) == updates && UpdatesOk(updates) && SettingsOk(updates)
  {
  }

  lemma CanonicalIsFine(scenario: string, generation: nat)
    requires IsSafeToken(scenario)
    ensures Trimmed(Canonical(scenario, generation)) == Canonical(scenario, generation)
    ensures UpdatesOk(Canonical(scenario, generation)) && SettingsOk(Canonical(scenario, generation))
  {
    CanonicalValuesAreStable(scenario, generation);
    StableIsFine(Canonical(scenario, generation));
  }

  lemma DigestsAreFine(prefix: string, digest: string)
    requires IsDigest(digest) && prefix != "" && !IsSpace(prefix[0]) && OneLine(prefix)
    ensures Trim(prefix + digest) == prefix + digest && OneLine(prefix + digest)
  {
    var s := prefix + digest;
    assert s[|s| - 1] == digest[70] && digest[70] == digest[7..][63];
    TrimEnds(s);
    forall i | 0 <= i < |digest| ensures digest[i] != '\r' && digest[i] != '\n' {
      if i < 7 { assert digest[i] == digest[..7][i]; } else { assert digest[i] == digest[7..][i - 7]; }
    }
  }

  lemma ReferencesAreFine(storage: Pins)
    requires PinsFor(storage, {GamePostgres, GameRedis})
    ensures Trimmed(References(storage)) == References(storage) && UpdatesOk(References(storage))
    ensures SettingsOk(References(storage))
  {
    DigestsAreFine("postgres:16-alpine@", Get(storage, GamePostgres));
    DigestsAreFine("redis:7-alpine@", Get(storage, GameRedis));
  }

  /** The settings that are checked untrimmed are in trimmed form already. */
  lemma SettingSurvivesTrimming(key: Key, value: string)
    requires SettingOk(key, value)
    ensures SettingOk(key, Trim(value))
  {
    match key
    case MaxGeneral => TrimEnds(value);
    case FirstTurn => TrimEnds("immediate"); TrimEnds("scheduled");
    case LookupDir => TrimEnds(""); TrimEnds("/data/scenarios");
    case _ =>
  }

  lemma SettingsSurviveTrimming(updates: Updates)
    requires SettingsOk(updates)
    ensures SettingsOk(Trimmed(updates))
  {
    forall k | k in updates ensures SettingOk(k, Trim(updates[k])) {
      SettingSurvivesTrimming(k, updates[k]);
    }
  }

  lemma TrimmedTwice(updates: Updates)
    requires UpdatesOk(updates)
    ensures Trimmed(Trimmed(updates)) == Trimmed(updates) && UpdatesOk(Trimmed(updates))
  {
    forall k | k in updates ensures Trim(Trim(updates[k])) == Trim(updates[k]) {
      TrimTwice(updates[k]);
    }
  }

  /** Overlaying fine updates on fine updates is fine. */
  lemma OverlayIsFine(a: Updates, b: Updates)
    requires UpdatesOk(a) && Trimmed(a) == a && UpdatesOk(b) && Trimmed(b) == b
    ensures UpdatesOk(a + b) && Trimmed(a + b) == a + b
  {
    forall k | k in a ensures Trim(a[k]) == a[k] { assert Trimmed(a)[k] == a[k]; }
    forall k | k in b ensures Trim(b[k]) == b[k] { assert Trimmed(b)[k] == b[k]; }
  }

  lemma SettingsOverlay(a: Updates, b: Updates)
    requires SettingsOk(a) && SettingsOk(b)
    ensures SettingsOk(a + b)
  {
  }

  /** What the steps before the pins leave. */
  lemma BaseIsBasic(t: Target)
    requires Acceptable(t)
    ensures Basic(Base(t))
  {
    var wanted := Canonical(Trim(t.scenario), t.generation);
    SettingsSurviveTrimming(t.updates);
    TrimmedTwice(t.updates);
    TrimTwice(t.scenario);
    CanonicalIsFine(Trim(t.scenario), t.generation);
    OverlayIsFine(Trimmed(t.updates), wanted);
    SettingsOverlay(Trimmed(t.updates), wanted);
  }

  lemma PinsStayFine(t: Target)
    requires Pinned(t).Some? && Fine(t.updates)
    ensures Fine(Pinned(t).value.updates)
  {
    if Pinned(t).value != t {
      ReferencesAreFine(t.storage);
      OverlayIsFine(t.updates, References(t.storage));
      SettingsOverlay(t.updates, References(t.storage));
    }
  }

  lemma PinsTwice(t: Target)
    requires Pinned(t).Some?
    ensures var u := Pinned(t).value;
      Pinned(u) == Some(u) && u == t.(updates := u.updates) && Includes(u.updates, t.updates)
  {
    var u := Pinned(t).value;
    if u != t { assert u.updates + References(t.storage) == u.updates; }
  }

  lemma PinnedIsNormal(t: Target)
    requires Basic(t) && Pinned(t).Some?
    ensures Normal(Pinned(t).value)
  {
    PinsStayFine(t);
    PinsTwice(t);
  }

  /** Normalising twice is normalising once. */
  lemma NormalizeTwice(t: Target)
    requires Normalize(t).Some?
    ensures Normal(Normalize(t).value)
    ensures Normalize(Normalize(t).value) == Normalize(t)
  {
    BaseIsBasic(t);
    PinnedIsNormal(Base(t));
    BasicIsItsBase(Normalize(t).value);
  }

  /** A normalised target comes back from a journal as it went in. */
  lemma NormalizedSurvivesTheJournal(t: Target)
    requires Normalize(t).Some?
    ensures NormalizeJournal(Normalize(t).value) == Normalize(t)
  {
    NormalizeTwice(t);
    var u := Normalize(t).value;
    assert !Legacy(u);
  }

  /** And so does whatever a journal was read as, older ones included. */
  lemma JournalTargetsAreStable(t: Target)
    requires NormalizeJournal(t).Some?
    ensures NormalizeJournal(NormalizeJournal(t).value) == NormalizeJournal(t)
  {
    if !Legacy(t) {
      NormalizedSurvivesTheJournal(t);
    } else {
      NormalizeTwice(WithoutTags(t));
      NoTagsAppear(WithoutTags(t));
      LegacyIsStable(Normalize(WithoutTags(t)).value, t.updates);
    }
  }

  lemma LegacyIsStable(u: Target, updates: Updates)
    requires Normalize(u) == Some(u) && ImageTag !in u.updates && WebGameTag !in u.updates && |u.images| == 0
    requires (ImageTag in updates || WebGameTag in updates) && forall k :: k in Tags(updates) ==>
        IsHex(Tags(updates)[k], 40)
    ensures var v := u.(updates := u.updates + Tags(updates)); NormalizeJournal(v) == Some(v)
  {
    var v := u.(updates := u.updates + Tags(updates));
    TagsAgain(u.updates, updates);
    TagsLeave(u.updates, updates);
    assert ImageTag in v.updates || WebGameTag in v.updates;
    LegacyReads(v, u);
  }

  lemma LegacyReads(v: Target, u: Target)
    requires Legacy(v) && WithoutTags(v) == u && Normalize(u) == Some(u)
    requires forall k :: k in Tags(v.updates) ==> IsHex(Tags(v.updates)[k], 40)
    ensures NormalizeJournal(v) == Some(u.(updates := u.updates + Tags(v.updates)))
  {
  }

  lemma TagStays(rest: Updates, updates: Updates, k: Key)
    requires ImageTag !in rest && WebGameTag !in rest
    ensures k in Tags(rest + Tags(updates)) <==> k in Tags(updates)
    ensures k in Tags(updates) ==> Tags(rest + Tags(updates))[k] == Tags(updates)[k]
  {
    if k in Tags(updates) { TrimTwice(updates[k]); }
  }

  lemma SameMap(a: Updates, b: Updates)
    requires forall k :: (k in a <==> k in b) && (k in b ==> a[k] == b[k])
    ensures a == b
  {
  }

  lemma TagsAgain(rest: Updates, updates: Updates)
    requires ImageTag !in rest && WebGameTag !in rest
    ensures Tags(rest + Tags(updates)) == Tags(updates)
  {
    forall k
      ensures k in Tags(rest + Tags(updates)) <==> k in Tags(updates)
      ensures k in Tags(updates) ==> Tags(rest + Tags(updates))[k] == Tags(updates)[k]
    {
      TagStays(rest, updates, k);
    }
    SameMap(Tags(rest + Tags(updates)), Tags(updates));
  }

  lemma TagsLeave(rest: Updates, updates: Updates)
    requires ImageTag !in rest && WebGameTag !in rest
    ensures (rest + Tags(updates)) - {ImageTag, WebGameTag} == rest
  {
  }

  lemma NoTagsAppear(t: Target)
    requires Normalize(t).Some? && ImageTag !in t.updates && WebGameTag !in t.updates
    ensures ImageTag !in Normalize(t).value.updates && WebGameTag !in Normalize(t).value.updates
    ensures Normalize(t).value.images == t.images
  {
  }

  /** The updates as they are written into an env file. */
  ghost function Written(updates: Updates): map<string, string> {
    map name | name in (set k | k in updates :: Name(k)) :: updates[KeyNamed(updates, name)]
  }

  ghost function KeyNamed(updates: Updates, name: string): Key
    requires name in (set k | k in updates :: Name(k))
    ensures KeyNamed(updates, name) in updates && Name(KeyNamed(updates, name)) == name
  {
    var k :| k in updates && Name(k) == name;
    k
  }

  /** Everything a normalised target writes into an env file is writable there:
      its keys are env keys and its values stay on their line. */
  lemma NormalizedIsWritable(t: Target)
    requires Normalize(t).Some?
    ensures EnvPatch.Writable(Written(Normalize(t).value.updates))
  {
    NormalizeTwice(t);
    FineIsWritable(Normalize(t).value.updates);
  }

  /** And a reset always sets its scenario, its generation and seeding. */
  lemma NormalizedSetsTheWorld(t: Target)
    requires Normalize(t).Some?
    ensures var u := Normalize(t).value;
      Includes(u.updates, map[ScenarioCode := u.scenario, SeedEnabled := "true", Generation := Decimal(t.generation)])
  {
    NormalizeTwice(t);
  }

  lemma FineIsWritable(updates: Updates)
    requires UpdatesOk(updates) && Trimmed(updates) == updates
    ensures EnvPatch.Writable(Written(updates))
  {
    forall name | name in Written(updates) ensures IsEnvKey(name) && '\n' !in Written(updates)[name] {
      var k := KeyNamed(updates, name);
      assert Trimmed(updates)[k] == updates[k];
      KeysAreEnvKeys(k);
    }
  }

  predicate ServerKeys(key: Key) {
    key.PostgresImage? || key.RedisImage? || key.ServerName? || key.MaxGeneral? ||
    key.FirstTurn? || key.LookupDir? || key.ImageTag? || key.WebGameTag?
  }

  lemma ServerKeysAreEnvKeys(key: Key)
    requires ServerKeys(key)
    ensures IsEnvKey(Name(key))
  {
  }

  predicate WorldKeys(key: Key) {
    key.ScenarioCode? || key.SeedEnabled? || key.Generation? || key.TurnTerm? ||
    key.Sync? || key.Fiction? || key.Extend? || key.BlockGeneralCreate?
  }

  lemma WorldKeysAreEnvKeys(key: Key)
    requires WorldKeys(key)
    ensures IsEnvKey(Name(key))
  {
  }

  predicate RuleKeys(key: Key) {
    key.NpcMode? || key.ShowImgLevel? || key.AutorunUserOptions? || key.AutorunUserMinutes? ||
    key.JoinMode? || key.TournamentTrig? || key.ReserveOpen? || key.PreReserveOpen?
  }

  lemma RuleKeysAreEnvKeys(key: Key)
    requires RuleKeys(key)
    ensures IsEnvKey(Name(key))
  {
  }

  lemma KeysAreEnvKeys(key: Key)
    requires !key.Unsupported?
    ensures IsEnvKey(Name(key))
  {
    if ServerKeys(key) { ServerKeysAreEnvKeys(key); }
    else if WorldKeys(key) { WorldKeysAreEnvKeys(key); }
    else { RuleKeysAreEnvKeys(key); }
  }
}
