/** Patching an env file: the first assignment of each updated key is rewritten
    in place, and keys the file does not assign are appended in sorted order. */
module EnvPatch {
  import opened Lifecycle
  import opened EnvFile

  // ----------------------------------------------------------- Sorted keys

  predicate Before(a: string, b: string) {
    b != "" && (a == "" || a[0] < b[0] || (a[0] == b[0] && Before(a[1..], b[1..])))
  }

  lemma {:induction false} BeforeIsTotal(a: string, b: string)
    ensures a == b || Before(a, b) || Before(b, a)
  {
    if a != "" && b != "" && a[0] == b[0] {
      BeforeIsTotal(a[1..], b[1..]);
      assert a == [a[0]] + a[1..] && b == [b[0]] + b[1..];
    }
  }

  lemma {:induction false} BeforeIsStrict(a: string, b: string)
    requires Before(a, b)
    ensures !Before(b, a) && a != b
  {
    if a != "" && a[0] == b[0] {
      BeforeIsStrict(a[1..], b[1..]);
    }
  }

  lemma {:induction false} BeforeIsTransitive(a: string, b: string, c: string)
    requires Before(a, b) && Before(b, c)
    ensures Before(a, c)
  {
    if a != "" && a[0] == b[0] && b[0] == c[0] {
      BeforeIsTransitive(a[1..], b[1..], c[1..]);
    }
  }

  predicate Ascending(keys: seq<string>) {
    forall i, j :: 0 <= i < j < |keys| ==> Before(keys[i], keys[j])
  }

  function Insert(keys: seq<string>, key: string): seq<string> {
    if keys == [] || Before(key, keys[0]) then [key] + keys else [keys[0]] + Insert(keys[1..], key)
  }

  lemma {:induction false} InsertSorts(keys: seq<string>, key: string)
    requires Ascending(keys) && key !in keys
    ensures Ascending(Insert(keys, key))
    ensures forall k :: k in Insert(keys, key) <==> k == key || k in keys
  {
    if keys == [] {
    } else if Before(key, keys[0]) {
      forall j | 0 <= j < |keys| ensures Before(key, keys[j]) {
        if j > 0 { BeforeIsTransitive(key, keys[0], keys[j]); }
      }
      assert forall k :: k in [key] + keys <==> k == key || k in keys;
    } else {
      var rest := keys[1..];
      BeforeIsTotal(key, keys[0]);
      InsertSorts(rest, key);
      var t := Insert(rest, key);
      forall j | 0 <= j < |t| ensures Before(keys[0], t[j]) {
        assert t[j] in t;
        if t[j] != key { assert t[j] in rest; }
      }
      assert forall k :: k in keys <==> k == keys[0] || k in rest;
    }
  }

  /** The keys of a set in ascending order. */
  ghost function Sorted(keys: set<string>): seq<string>
    decreases |keys|
  {
    if keys == {} then [] else var k :| k in keys; Insert(Sorted(keys - {k}), k)
  }

  ghost predicate Lists(order: seq<string>, keys: set<string>) {
    Ascending(order) && forall k :: k in keys <==> k in order
  }

  lemma {:induction false} SortedLists(keys: set<string>)
    ensures Lists(Sorted(keys), keys)
    decreases |keys|
  {
    if keys != {} {
      var k :| k in keys && Sorted(keys) == Insert(Sorted(keys - {k}), k);
      SortedLists(keys - {k});
      InsertSorts(Sorted(keys - {k}), k);
    }
  }

  /** Only one ascending sequence lists a given set. */
  lemma {:induction false} OneOrder(a: seq<string>, b: seq<string>, keys: set<string>)
    requires Lists(a, keys) && Lists(b, keys)
    ensures a == b
  {
    assert (a == [] || a[0] in a) && (b == [] || b[0] in b);
    if a != [] && b != [] {
      if a[0] != b[0] {
        var i :| 0 <= i < |b| && b[i] == a[0];
        var j :| 0 <= j < |a| && a[j] == b[0];
        BeforeIsStrict(a[0], b[0]);
      }
      TailLists(a, keys);
      TailLists(b, keys);
      OneOrder(a[1..], b[1..], keys - {a[0]});
      assert a == [a[0]] + a[1..] && b == [b[0]] + b[1..];
    }
  }

  lemma TailLists(order: seq<string>, keys: set<string>)
    requires Lists(order, keys) && order != []
    ensures Lists(order[1..], keys - {order[0]})
  {
    forall k ensures k in keys - {order[0]} <==> k in order[1..] {
      if k in order[1..] {
        var i :| 0 <= i < |order[1..]| && order[1..][i] == k;
        assert order[i + 1] == k && Before(order[0], order[i + 1]);
        BeforeIsStrict(order[0], k);
      }
      if k in keys - {order[0]} {
        var i :| 0 <= i < |order| && order[i] == k;
        assert order[1..][i - 1] == k;
      }
    }
  }

  // ------------------------------------------------------------ The patch

  predicate IsFirst(lines: seq<EnvLine>, i: int) {
    0 <= i < |lines| && lines[i].isKV && forall j :: 0 <= j < i ==> !Assigns(lines[j], lines[i].key)
  }

  function Rewritten(lines: seq<EnvLine>, updates: map<string, string>, i: int): EnvLine
    requires 0 <= i < |lines|
  {
    if IsFirst(lines, i) && lines[i].key in updates then KV(lines[i].key, updates[lines[i].key]) else lines[i]
  }

  function Assigned(lines: seq<EnvLine>): set<string> {
    set i | 0 <= i < |lines| && lines[i].isKV :: lines[i].key
  }

  function Missing(lines: seq<EnvLine>, updates: map<string, string>): set<string> {
    updates.Keys - Assigned(lines)
  }

  function Additions(order: seq<string>, updates: map<string, string>): seq<EnvLine>
    requires forall k :: k in order ==> k in updates
  {
    seq(|order|, i requires 0 <= i < |order| => assert order[i] in order; KV(order[i], updates[order[i]]))
  }

  ghost function Patched(lines: seq<EnvLine>, updates: map<string, string>): seq<EnvLine> {
    SortedLists(Missing(lines, updates));
    seq(|lines|, i requires 0 <= i < |lines| => Rewritten(lines, updates, i))
      + Additions(Sorted(Missing(lines, updates)), updates)
  }

  // ------------------------------------------------------------- The method

  /** The updates that no line before `n` has taken. */
  function Remaining(lines: seq<EnvLine>, updates: map<string, string>, n: nat): map<string, string>
    requires n <= |lines|
  {
    map k | k in updates && (forall j :: 0 <= j < n ==> !Assigns(lines[j], k)) :: updates[k]
  }

  lemma RemainingStep(lines: seq<EnvLine>, updates: map<string, string>, n: nat)
    requires n < |lines|
    ensures Remaining(lines, updates, n + 1) ==
            if lines[n].isKV then Remaining(lines, updates, n) - {lines[n].key} else Remaining(lines, updates, n)
    ensures lines[n].isKV && lines[n].key in updates ==>
        (lines[n].key in Remaining(lines, updates, n) <==> IsFirst(lines, n))
  {
  }

  lemma RemainingIsMissing(lines: seq<EnvLine>, updates: map<string, string>)
    ensures Remaining(lines, updates, |lines|).Keys == Missing(lines, updates)
  {
  }

  lemma ValuesGrow(lines: seq<EnvLine>, line: EnvLine)
    ensures Values(lines + [line]) == if line.isKV then Values(lines)[line.key := line.value] else Values(lines)
  {
    assert (lines + [line])[..|lines|] == lines;
  }

  /** The keys of a map, sorted. */
  method SortKeys(remaining: map<string, string>) returns (keys: seq<string>)
    ensures keys == Sorted(remaining.Keys) && (forall k :: k in keys <==> k in remaining)
  {
    keys := [];
    var todo := remaining.Keys;
    while todo != {}
      invariant todo <= remaining.Keys && Lists(keys, remaining.Keys - todo)
    {
      var k :| k in todo;
      InsertSorts(keys, k);
      keys := Insert(keys, k);
      todo := todo - {k};
    }
    SortedLists(remaining.Keys);
    OneOrder(keys, Sorted(remaining.Keys), remaining.Keys);
  }

  /** The loop over the file's own lines. */
  method RewriteLines(original: seq<EnvLine>, updates: map<string, string>)
      returns (lines: seq<EnvLine>, remaining: map<string, string>, values: map<string, string>)
    ensures lines == seq(|original|, i requires 0 <= i < |original| => Rewritten(original, updates, i))
    ensures remaining == Remaining(original, updates, |original|) && values == Values(lines)
  {
    lines := original;
    remaining := updates;
    values := map[];
    assert Remaining(original, updates, 0) == updates;
    for i := 0 to |original|
      invariant |lines| == |original|
      invariant forall j :: 0 <= j < i ==> lines[j] == Rewritten(original, updates, j)
      invariant forall j :: i <= j < |lines| ==> lines[j] == original[j]
      invariant remaining == Remaining(original, updates, i)
      invariant values == Values(lines[..i])
    {
      RemainingStep(original, updates, i);
      ghost var done := lines[..i];
      if lines[i].isKV {
        if lines[i].key in remaining {
          lines := lines[i := KV(lines[i].key, remaining[lines[i].key])];
          remaining := remaining - {lines[i].key};
        }
        values := values[lines[i].key := lines[i].value];
      }
      assert lines[..i + 1] == done + [lines[i]];
      ValuesGrow(done, lines[i]);
    }
    assert lines[..|original|] == lines;
  }

  method PatchLines(original: seq<EnvLine>, updates: map<string,
                    string>) returns (lines: seq<EnvLine>, values: map<string, string>)
    ensures lines == Patched(original, updates) && values == Values(lines)
  {
    var remaining;
    lines, remaining, values := RewriteLines(original, updates);
    RemainingIsMissing(original, updates);
    var keys := SortKeys(remaining);
    ghost var kept := lines;
    for i := 0 to |keys|
      invariant lines == kept + Additions(keys, updates)[..i]
      invariant values == Values(lines)
    {
      assert keys[i] in keys;
      var line := KV(keys[i], remaining[keys[i]]);
      assert Additions(keys, updates)[..i + 1] == Additions(keys, updates)[..i] + [line];
      ValuesGrow(lines, line);
      values := values[line.key := line.value];
      lines := lines + [line];
    }
    assert Additions(keys, updates)[..|keys|] == Additions(keys, updates);
  }

  // ------------------------------------------------------------ Idempotence

  lemma PatchedShape(lines: seq<EnvLine>, updates: map<string, string>)
    ensures var p := Patched(lines, updates);
      && |p| >= |lines|
      && (forall i :: 0 <= i < |lines| ==> p[i] == Rewritten(lines, updates, i))
      && (forall i :: |lines| <= i < |p| ==>
            p[i].isKV && p[i].key in Missing(lines, updates) && p[i] == KV(p[i].key, updates[p[i].key]))
      && (forall k :: k in Missing(lines, updates) ==> exists i :: |lines| <= i < |p| && p[i].key == k)
      && (forall i, j :: |lines| <= i < j < |p| ==> p[i].key != p[j].key)
  {
    var order := Sorted(Missing(lines, updates));
    SortedLists(Missing(lines, updates));
    var p := Patched(lines, updates);
    var n := |lines|;
    forall i | n <= i < |p|
      ensures p[i].isKV && p[i].key in Missing(lines, updates) && p[i] == KV(p[i].key, updates[p[i].key])
    {
      assert p[i] == KV(order[i - n], updates[order[i - n]]) && order[i - n] in order;
    }
    forall k | k in Missing(lines, updates) ensures exists i :: n <= i < |p| && p[i].key == k {
      var j :| 0 <= j < |order| && order[j] == k;
      assert p[n + j].key == k;
    }
    forall i, j | n <= i < j < |p| ensures p[i].key != p[j].key {
      BeforeIsStrict(order[i - n], order[j - n]);
    }
  }

  /** In a patched file the first assignment of an updated key has its update. */
  lemma FirstIsUpdated(lines: seq<EnvLine>, updates: map<string, string>, i: nat)
    requires i < |Patched(lines, updates)|
    requires IsFirst(Patched(lines, updates), i) && Patched(lines, updates)[i].key in updates
    ensures var line := Patched(lines, updates)[i]; line == KV(line.key, updates[line.key])
  {
    PatchedShape(lines, updates);
    var p := Patched(lines, updates);
    if i < |lines| {
      forall j | 0 <= j < i ensures !Assigns(lines[j], lines[i].key) {
        assert !Assigns(p[j], p[i].key) && p[j] == Rewritten(lines, updates, j);
      }
      assert IsFirst(lines, i);
    }
  }

  lemma PatchedAssignsAll(lines: seq<EnvLine>, updates: map<string, string>)
    ensures Missing(Patched(lines, updates), updates) == {}
  {
    PatchedShape(lines, updates);
    var p := Patched(lines, updates);
    forall k | k in updates ensures k in Assigned(p) {
      if k in Assigned(lines) {
        var i :| 0 <= i < |lines| && lines[i].isKV && lines[i].key == k;
        assert p[i].isKV && p[i].key == k;
      } else {
        assert k in Missing(lines, updates);
        var i :| |lines| <= i < |p| && p[i].key == k;
        assert p[i].isKV;
      }
    }
  }

  /** Patching again with the same updates changes no line. */
  lemma PatchTwiceIsOnce(lines: seq<EnvLine>, updates: map<string, string>)
    ensures Patched(Patched(lines, updates), updates) == Patched(lines, updates)
  {
    var p := Patched(lines, updates);
    PatchedAssignsAll(lines, updates);
    assert Sorted({}) == [];
    forall i | 0 <= i < |p| ensures Rewritten(p, updates, i) == p[i] {
      if IsFirst(p, i) && p[i].key in updates { FirstIsUpdated(lines, updates, i); }
    }
  }

  // ---------------------------------------------------------------- Overlay

  predicate AtMostOnce(lines: seq<EnvLine>, key: string) {
    forall i, j :: 0 <= i < j < |lines| ==> !(Assigns(lines[i], key) && Assigns(lines[j], key))
  }

  function Lookup(values: map<string, string>, key: string): Option<string> {
    if key in values then Some(values[key]) else None
  }

  /** The last assignment of a key stays the last, unless the key was appended. */
  lemma LastStaysLast(lines: seq<EnvLine>, updates: map<string, string>, i: nat, key: string)
    requires IsLast(lines, i, key)
    ensures var p := Patched(lines, updates); i < |p| && IsLast(p, i, key) && p[i] == Rewritten(lines, updates, i)
  {
    PatchedShape(lines, updates);
    var p := Patched(lines, updates);
    assert key in Assigned(lines);
    forall j | i < j < |p| ensures !Assigns(p[j], key) {
      if j < |lines| { assert p[j] == Rewritten(lines, updates, j); }
    }
  }

  lemma AppendedValue(lines: seq<EnvLine>, updates: map<string, string>, key: string)
    requires key in Missing(lines, updates)
    ensures Lookup(Values(Patched(lines, updates)), key) == Some(updates[key])
  {
    PatchedShape(lines, updates);
    var p := Patched(lines, updates);
    var i :| |lines| <= i < |p| && p[i].key == key;
    assert IsLast(p, i, key);
    ValueIsLast(p, key);
  }

  lemma PatchedValue(lines: seq<EnvLine>, updates: map<string, string>, key: string)
    ensures Lookup(Values(Patched(lines, updates)), key) ==
            if key in updates && AtMostOnce(lines, key) then Some(updates[key]) else Lookup(Values(lines), key)
  {
    var p := Patched(lines, updates);
    ValueIsLast(lines, key);
    ValueIsLast(p, key);
    if key in Missing(lines, updates) {
      AppendedValue(lines, updates, key);
    } else if key in Values(lines) {
      var i :| IsLast(lines, i, key);
      LastStaysLast(lines, updates, i, key);
      if AtMostOnce(lines, key) {
        assert IsFirst(lines, i);
      } else {
        var a, b :| 0 <= a < b < |lines| && Assigns(lines[a], key) && Assigns(lines[b], key);
        assert a < i;
      }
    } else {
      PatchedShape(lines, updates);
    }
  }

  /** A patch overlays the updates on the values exactly when every updated key
      is assigned at most once, or its last assignment already had the update. */
  lemma PatchOverlaysIff(lines: seq<EnvLine>, updates: map<string, string>)
    ensures Values(Patched(lines, updates)) == Values(lines) + updates <==>
            forall k :: k in updates ==> AtMostOnce(lines, k) || Lookup(Values(lines), k) == Some(updates[k])
  {
    var v := Values(Patched(lines, updates));
    var w := Values(lines) + updates;
    forall k ensures Lookup(v, k) == Lookup(w, k) <==>
                     (k in updates ==> AtMostOnce(lines, k) || Lookup(Values(lines), k) == Some(updates[k]))
    {
      PatchedValue(lines, updates, k);
    }
    if v == w {
      forall k | k in updates ensures AtMostOnce(lines, k) || Lookup(Values(lines), k) == Some(updates[k]) {
        assert Lookup(v, k) == Lookup(w, k);
      }
    } else {
      SameLookups(v, w);
    }
  }

  lemma SameLookups(v: map<string, string>, w: map<string, string>)
    ensures (forall k :: Lookup(v, k) == Lookup(w, k)) ==> v == w
  {
    if forall k :: Lookup(v, k) == Lookup(w, k) {
      forall k ensures k in v <==> k in w {
        assert Lookup(v, k) == Lookup(w, k);
      }
      forall k | k in v ensures v[k] == w[k] {
        assert Lookup(v, k) == Lookup(w, k);
      }
    }
  }

  /** And it fails: a key assigned twice keeps its old value. */
  lemma DuplicateKeyKeepsItsOldValue()
    ensures var lines := [KV("IMAGE_TAG", "a"), KV("IMAGE_TAG", "b")];
      Values(Patched(lines, map["IMAGE_TAG" := "c"])) == map["IMAGE_TAG" := "b"]
  {
    var lines := [KV("IMAGE_TAG", "a"), KV("IMAGE_TAG", "b")];
    var updates := map["IMAGE_TAG" := "c"];
    PatchedShape(lines, updates);
    var p := Patched(lines, updates);
    assert lines[0].key in Assigned(lines);
    assert Missing(lines, updates) == {};
    assert p == [KV("IMAGE_TAG", "c"), KV("IMAGE_TAG", "b")] by {
      assert Sorted({}) == [];
      assert IsFirst(lines, 0) && !IsFirst(lines, 1) by { assert Assigns(lines[0], lines[1].key); }
    }
    ValuesGrow([], p[0]);
    ValuesGrow([p[0]], p[1]);
    assert [] + [p[0]] == [p[0]] && [p[0]] + [p[1]] == p;
  }

  // --------------------------------------------------------------- The file

  /** Keys the deployer may write and values that stay on their line. */
  predicate Writable(updates: map<string, string>) {
    forall k :: k in updates ==> IsEnvKey(k) && '\n' !in updates[k]
  }

  ghost function PatchedText(text: string, updates: map<string, string>): string {
    Print(Patched(Parse(text), updates))
  }

  lemma PatchedIsReadable(lines: seq<EnvLine>, updates: map<string, string>)
    requires AllReadable(lines) && Writable(updates)
    ensures AllReadable(Patched(lines, updates))
  {
    PatchedShape(lines, updates);
    var p := Patched(lines, updates);
    forall i | 0 <= i < |p| ensures Readable(p[i]) {
      if i >= |lines| || lines[i].key in updates {
        if p[i].key in updates { AssignmentIsReadable(p[i].key, updates[p[i].key]); }
      }
    }
  }

  /** What a patched file reads back as is the patched lines. */
  lemma PatchedFileReads(text: string, updates: map<string, string>)
    requires Writable(updates)
    ensures Parse(PatchedText(text, updates)) == Patched(Parse(text), updates)
  {
    ParsedIsReadable(text);
    PatchedIsReadable(Parse(text), updates);
    ParseUndoesPrint(Patched(Parse(text), updates));
  }

  /** A patch repeated, after a crash or by a repair, leaves the file byte for byte. */
  lemma PatchingTheFileTwice(text: string, updates: map<string, string>)
    requires Writable(updates)
    ensures PatchedText(PatchedText(text, updates), updates) == PatchedText(text, updates)
  {
    PatchedFileReads(text, updates);
    PatchTwiceIsOnce(Parse(text), updates);
  }
}
