/** JSON payloads of step commands: the deep merge used to read a provider binding
    back, the shallow overlay used to enrich a lifecycle request, and the walk over
    nested keys that keeps inline secrets out of stored commands. */
module Payloads {

  datatype Json =
    | Null
    | Bool(flag: bool)
    | Number(value: real)
    | Text(text: string)
    | List(items: seq<Json>)
    | Object(fields: map<string, Json>)

  const EMPTY := Object(map[])

  // ---------------------------------------------------------------- merging

  /** The value that stays under a key holding `base` once `update` is merged over it:
      two dictionaries merge key by key, anything else is replaced. */
  function Merge(base: Json, update: Json): Json
    decreases update
  {
    if base.Object? && update.Object? then
      Object(map k | k in base.fields.Keys + update.fields.Keys ::
        if k !in update.fields then base.fields[k]
        else if k in base.fields then Merge(base.fields[k], update.fields[k])
        else update.fields[k])
    else
      update
  }

  /** The shallow overlay: every top-level key of `update` wins outright. */
  function Overlay(base: Json, update: Json): Json
  {
    if base.Object? && update.Object? then Object(base.fields + update.fields) else update
  }

  /** What the store's merge leaves under one key. */
  function MergedField(base: map<string, Json>, update: map<string, Json>, key: string): Json
    requires key in base || key in update
  {
    if key !in update then base[key]
    else if key in base then Merge(base[key], update[key])
    else update[key]
  }

  lemma MergeByField(base: map<string, Json>, update: map<string, Json>, result: map<string, Json>)
    requires result.Keys == base.Keys + update.Keys
    requires forall k :: k in result ==> result[k] == MergedField(base, update, k)
    ensures Object(result) == Merge(Object(base), Object(update))
  {
    var merged := Merge(Object(base), Object(update)).fields;
    assert merged.Keys == result.Keys;
    forall k | k in result
      ensures merged[k] == result[k]
    {
    }
    assert merged == result;
  }

  /** The copied dictionary once the entries outside `pending` were assigned. */
  ghost predicate PartlyMerged(base: map<string, Json>, update: map<string, Json>,
                               pending: set<string>, result: map<string, Json>)
  {
    && pending <= update.Keys
    && result.Keys == base.Keys + (update.Keys - pending)
    && forall k :: k in result ==>
         result[k] == if k in update && k !in pending then MergedField(base, update, k) else base[k]
  }

  lemma AssignEntry(base: map<string, Json>, update: map<string, Json>,
                    pending: set<string>, result: map<string, Json>, key: string, value: Json)
    requires PartlyMerged(base, update, pending, result)
    requires key in pending && value == MergedField(base, update, key)
    ensures PartlyMerged(base, update, pending - {key}, result[key := value])
  {
  }

  /** The merge as the store performs it: copy the base dictionary, then walk the
      update's entries and assign them one by one. */
  method Merged(base: map<string, Json>, update: map<string, Json>) returns (result: map<string, Json>)
    ensures Object(result) == Merge(Object(base), Object(update))
    decreases Object(update), 1
  {
    hide PartlyMerged, Merge, MergedField;
    result := base;
    var pending := update.Keys;
    NothingMerged(base, update);
    while pending != {}
      invariant PartlyMerged(base, update, pending, result)
      decreases |pending|
    {
      var key :| key in pending;
      PendingKnown(base, update, pending, result);
      var value := update[key];
      if key in result {
        EntryIsSmaller(update, key);
        value := MergedEntry(result[key], value);
      }
      PendingEntry(base, update, pending, result, key);
      AssignEntry(base, update, pending, result, key, value);
      result := result[key := value];
      pending := pending - {key};
    }
    AllMerged(base, update, result);
  }

  lemma EntryIsSmaller(update: map<string, Json>, key: string)
    requires key in update
    ensures update[key] < Object(update)
  {
    assert update[key] == Object(update).fields[key];
  }

  lemma NothingMerged(base: map<string, Json>, update: map<string, Json>)
    ensures PartlyMerged(base, update, update.Keys, base)
  {
  }

  lemma PendingKnown(base: map<string, Json>, update: map<string, Json>, pending: set<string>, result: map<string, Json>)
    requires PartlyMerged(base, update, pending, result)
    ensures pending <= update.Keys
  {
  }

  lemma PendingEntry(base: map<string, Json>, update: map<string, Json>, pending: set<string>, result: map<string, Json>, key: string)
    requires PartlyMerged(base, update, pending, result) && key in pending
    ensures key in update && (key in result <==> key in base) && (key in base ==> result[key] == base[key])
    ensures MergedField(base, update, key) == if key in base then Merge(base[key], update[key]) else update[key]
  {
  }

  lemma AllMerged(base: map<string, Json>, update: map<string, Json>, result: map<string, Json>)
    requires PartlyMerged(base, update, {}, result)
    ensures Object(result) == Merge(Object(base), Object(update))
  {
    MergeByField(base, update, result);
  }

  /** The entry assigned under a key the base already holds. */
  method MergedEntry(held: Json, value: Json) returns (result: Json)
    ensures result == Merge(held, value)
    decreases value, 2
  {
    if value.Object? && held.Object? {
      var nested := Merged(held.fields, value.fields);
      result := Object(nested);
    } else {
      result := value;
    }
  }

  lemma {:induction false} MergeIdempotent(a: Json)
    ensures Merge(a, a) == a
  {
    if a.Object? {
      var m := Merge(a, a);
      forall k | k in a.fields
        ensures m.fields[k] == a.fields[k]
      {
        MergeIdempotent(a.fields[k]);
      }
      assert m.fields == a.fields;
    }
  }

  /** Merging an update a second time changes nothing. */
  lemma {:induction false} MergeAbsorbs(a: Json, b: Json)
    ensures Merge(Merge(a, b), b) == Merge(a, b)
    decreases b
  {
    if a.Object? && b.Object? {
      var m := Merge(a, b);
      var n := Merge(m, b);
      forall k | k in m.fields
        ensures n.fields[k] == m.fields[k]
      {
        if k in b.fields {
          if k in a.fields {
            MergeAbsorbs(a.fields[k], b.fields[k]);
          } else {
            MergeIdempotent(b.fields[k]);
          }
        }
      }
      assert n.fields == m.fields;
    } else if b.Object? {
      MergeIdempotent(b);
    }
  }

  /** Enriching a request with the payload read back, then merging it over that same
      payload, is the same as merging the caller's own payload. */
  lemma {:induction false} OverlayIsTransparent(read: Json, raw: Json)
    requires read.Object? && raw.Object?
    ensures Merge(read, Overlay(read, raw)) == Merge(read, raw)
  {
    var left, right := Merge(read, Overlay(read, raw)), Merge(read, raw);
    forall k | k in left.fields
      ensures left.fields[k] == right.fields[k]
    {
      if k !in raw.fields {
        MergeIdempotent(read.fields[k]);
      }
    }
    assert left.fields == right.fields;
  }

  /** The payload read back after a history of stored payloads. */
  function FoldMerge(stored: seq<Json>): Json
  {
    if stored == [] then EMPTY else Merge(FoldMerge(stored[..|stored| - 1]), stored[|stored| - 1])
  }

  lemma {:induction false} FoldMergeIsObject(stored: seq<Json>)
    requires forall p :: p in stored ==> p.Object?
    ensures FoldMerge(stored).Object?
  {
    if stored != [] {
      FoldMergeIsObject(stored[..|stored| - 1]);
    }
  }

  /** What the store holds after the callers' payloads `raw` went through lifecycle
      enrichment one after the other: each is overlaid on the payload read back so far. */
  function Enriched(raw: seq<Json>): seq<Json>
  {
    if raw == [] then []
    else
      var earlier := Enriched(raw[..|raw| - 1]);
      earlier + [Overlay(FoldMerge(earlier), raw[|raw| - 1])]
  }

  /** Lifecycle enrichment is invisible to later reads: the payload read back is the
      fold of the deep merge over what the callers sent. */
  lemma {:induction false} EnrichmentIsTransparent(raw: seq<Json>)
    requires forall p :: p in raw ==> p.Object?
    ensures FoldMerge(Enriched(raw)) == FoldMerge(raw)
  {
    if raw != [] {
      var init, last := raw[..|raw| - 1], raw[|raw| - 1];
      EnrichmentIsTransparent(init);
      FoldMergeIsObject(init);
      var read := FoldMerge(Enriched(init));
      assert Enriched(raw)[..|Enriched(raw)| - 1] == Enriched(init);
      OverlayIsTransparent(read, last);
    }
  }

  // ---------------------------------------------------------------- stale reads

  /** Nothing of `was` was lost in `now`: every value below it is still there. */
  predicate Holds(now: Json, was: Json)
    decreases was
  {
    if now.Object? && was.Object? then
      forall k :: k in was.fields ==> k in now.fields && Holds(now.fields[k], was.fields[k])
    else now == was
  }

  lemma {:induction false} HoldsIsMergeIdle(now: Json, was: Json)
    ensures Merge(now, was) == now <==> Holds(now, was)
    decreases was
  {
    if now.Object? && was.Object? {
      var m := Merge(now, was);
      forall k | k in was.fields && k in now.fields
        ensures m.fields[k] == now.fields[k] <==> Holds(now.fields[k], was.fields[k])
      {
        HoldsIsMergeIdle(now.fields[k], was.fields[k]);
      }
      if Holds(now, was) {
        assert m.fields == now.fields;
      }
      if m == now {
        forall k | k in was.fields
          ensures k in now.fields
        {
          assert k in m.fields;
        }
      }
    }
  }

  /** Whatever the earlier read would put back, because the caller's payload does not name
      it, still stands. */
  predicate StillHeld(now: Json, read: Json, raw: Json)
    requires now.Object? && read.Object? && raw.Object?
  {
    forall k :: k in read.fields && k !in raw.fields ==> k in now.fields && Holds(now.fields[k], read.fields[k])
  }

  /** Merging a request enriched from an earlier read over what is stored now is merging the
      caller's own payload exactly when the read entries the caller does not name still
      stand. */
  lemma OverlayIsTransparentExactly(now: Json, read: Json, raw: Json)
    requires now.Object? && read.Object? && raw.Object?
    ensures Merge(now, Overlay(read, raw)) == Merge(now, raw) <==> StillHeld(now, read, raw)
  {
    var left, right := Merge(now, Overlay(read, raw)).fields, Merge(now, raw).fields;
    forall k | k in read.fields && k !in raw.fields
      ensures k in left && (k in right && left[k] == right[k] <==> k in now.fields && Holds(now.fields[k], read.fields[k]))
    {
      if k in now.fields {
        HoldsIsMergeIdle(now.fields[k], read.fields[k]);
      }
    }
    if StillHeld(now, read, raw) {
      assert left.Keys == right.Keys;
      forall k | k in left
        ensures left[k] == right[k]
      {
      }
      assert left == right;
    }
  }

  /** A read of what is stored now always still stands. */
  lemma {:induction false} HoldsItself(a: Json)
    ensures Holds(a, a)
  {
    MergeIdempotent(a);
    HoldsIsMergeIdle(a, a);
  }

  /** The payload read back after the first `n` of a history. */
  function FoldTo(stored: seq<Json>, n: nat): Json
    requires n <= |stored|
  {
    if n == 0 then EMPTY else Merge(FoldTo(stored, n - 1), stored[n - 1])
  }

  lemma {:induction false} FoldToIsObject(stored: seq<Json>, n: nat)
    requires n <= |stored| && forall i :: 0 <= i < |stored| ==> stored[i].Object?
    ensures FoldTo(stored, n).Object?
  {
    if n > 0 {
      FoldToIsObject(stored, n - 1);
    }
  }

  lemma {:induction false} FoldToIsFoldMerge(stored: seq<Json>, n: nat)
    requires n <= |stored|
    ensures FoldTo(stored, n) == FoldMerge(stored[..n])
  {
    if n > 0 {
      FoldToIsFoldMerge(stored, n - 1);
      assert stored[..n][..n - 1] == stored[..n - 1];
    }
  }

  /** Request `i` was enriched from what the first `seen[i]` of the stored payloads gave. */
  ghost predicate EnrichedFrom(raw: seq<Json>, seen: seq<nat>, stored: seq<Json>)
  {
    && |seen| == |raw| == |stored|
    && (forall i :: 0 <= i < |raw| ==> raw[i].Object? && seen[i] <= i)
    && forall i :: 0 <= i < |raw| ==> stored[i] == Overlay(FoldTo(stored, seen[i]), raw[i])
  }

  /** After each of the first `n` requests the payload read back is the fold of the callers'
      own payloads. */
  ghost predicate Transparent(raw: seq<Json>, stored: seq<Json>, n: nat)
    requires n <= |raw| && n <= |stored|
  {
    forall m :: 0 <= m <= n ==> FoldTo(stored, m) == FoldTo(raw, m)
  }

  ghost predicate ReadStillHeld(raw: seq<Json>, seen: seq<nat>, i: nat)
    requires i < |raw| && i < |seen| && seen[i] <= i
  {
    var now, read := FoldTo(raw, i), FoldTo(raw, seen[i]);
    now.Object? && read.Object? && raw[i].Object? && StillHeld(now, read, raw[i])
  }

  /** Enrichment is invisible to every later read exactly when no request puts back a value
      that changed between its read and its completion. */
  lemma {:induction false} EnrichmentIsTransparentExactly(raw: seq<Json>, seen: seq<nat>, stored: seq<Json>, n: nat)
    requires EnrichedFrom(raw, seen, stored) && n <= |raw|
    ensures Transparent(raw, stored, n) <==> forall i :: 0 <= i < n ==> ReadStillHeld(raw, seen, i)
  {
    hide FoldTo, ReadStillHeld;
    if n == 0 {
      NothingFolded(raw, stored);
    } else {
      assert |seen| == |raw| == |stored| && forall i :: 0 <= i < |raw| ==> seen[i] <= i;
      hide EnrichedFrom;
      EnrichmentIsTransparentExactly(raw, seen, stored, n - 1);
      OneMoreRequest(raw, seen, stored, n - 1);
      assert Transparent(raw, stored, n) <==> Transparent(raw, stored, n - 1) && FoldTo(stored, n) == FoldTo(raw, n);
    }
  }

  lemma NothingFolded(raw: seq<Json>, stored: seq<Json>)
    ensures FoldTo(raw, 0) == FoldTo(stored, 0)
  {
  }

  lemma OneMoreRequest(raw: seq<Json>, seen: seq<nat>, stored: seq<Json>, i: nat)
    requires EnrichedFrom(raw, seen, stored) && i < |raw|
    ensures Transparent(raw, stored, i) ==>
      (FoldTo(stored, i + 1) == FoldTo(raw, i + 1) <==> ReadStillHeld(raw, seen, i))
  {
    if Transparent(raw, stored, i) {
      FoldToIsObject(raw, i);
      FoldToIsObject(raw, seen[i]);
      assert FoldTo(stored, seen[i]) == FoldTo(raw, seen[i]) && FoldTo(stored, i) == FoldTo(raw, i);
      assert FoldTo(stored, i + 1) == Merge(FoldTo(raw, i), Overlay(FoldTo(raw, seen[i]), raw[i]));
      OverlayIsTransparentExactly(FoldTo(raw, i), FoldTo(raw, seen[i]), raw[i]);
    }
  }

  /** A request that saw all the requests before it puts nothing back. */
  lemma FreshReadStillHolds(raw: seq<Json>, seen: seq<nat>, i: nat)
    requires i < |raw| && i < |seen| && seen[i] == i && forall j :: 0 <= j < |raw| ==> raw[j].Object?
    ensures ReadStillHeld(raw, seen, i)
  {
    FoldToIsObject(raw, i);
    var now := FoldTo(raw, i);
    forall k | k in now.fields
      ensures Holds(now.fields[k], now.fields[k])
    {
      HoldsItself(now.fields[k]);
    }
  }

  /** Two requests enriched from the same read: the second puts the value back that the
      first changed. */
  lemma StaleEnrichmentReverts(p: Json, m: Json, n: Json)
    requires p == Object(map["a" := Number(1.0)])
    requires m == Object(map["a" := Number(2.0)])
    requires n == Object(map["b" := Number(3.0)])
    ensures var stored := [p, m, Overlay(p, n)];
      && EnrichedFrom([p, m, n], [0, 1, 1], stored)
      && FoldTo(stored, 3) == Object(map["a" := Number(1.0), "b" := Number(3.0)])
      && FoldTo([p, m, n], 3) == Object(map["a" := Number(2.0), "b" := Number(3.0)])
  {
    OneField("a", 1.0, 2.0, "b", 3.0);
    hide Merge, Overlay;
    FoldThree(p, m, n);
    FoldThree(p, m, Overlay(p, n));
    hide FoldTo;
  }

  lemma OneField(a: string, x: real, y: real, b: string, z: real)
    requires a != b
    ensures var p, m, n := Object(map[a := Number(x)]), Object(map[a := Number(y)]), Object(map[b := Number(z)]);
      && Overlay(EMPTY, p) == p && Overlay(p, m) == m && Merge(EMPTY, p) == p && Merge(p, m) == m
      && Merge(m, Overlay(p, n)) == Object(map[a := Number(x), b := Number(z)])
      && Merge(m, n) == Object(map[a := Number(y), b := Number(z)])
  {
    var p, m, n := Object(map[a := Number(x)]), Object(map[a := Number(y)]), Object(map[b := Number(z)]);
    assert Overlay(EMPTY, p).fields == p.fields && Overlay(p, m).fields == m.fields;
    assert Merge(EMPTY, p).fields == p.fields && Merge(p, m).fields == m.fields;
    assert Merge(m, Overlay(p, n)).fields == map[a := Number(x), b := Number(z)];
    assert Merge(m, n).fields == map[a := Number(y), b := Number(z)];
  }

  lemma FoldThree(a: Json, b: Json, c: Json)
    ensures FoldTo([a, b, c], 0) == EMPTY && FoldTo([a, b, c], 1) == Merge(EMPTY, a)
    ensures FoldTo([a, b, c], 3) == Merge(Merge(Merge(EMPTY, a), b), c)
  {
    hide Merge;
    var s := [a, b, c];
    assert FoldTo(s, 0) == EMPTY;
    assert FoldTo(s, 1) == Merge(FoldTo(s, 0), s[0]);
    assert FoldTo(s, 2) == Merge(FoldTo(s, 1), s[1]);
    assert FoldTo(s, 3) == Merge(FoldTo(s, 2), s[2]);
  }

  // ---------------------------------------------------------------- the order of folding

  /** Deep merge is not associative: a scalar between two dictionaries cuts off the first. */
  lemma MergeNotAssociative()
    ensures var a, b, c := Object(map["k" := Null]), Null, Object(map["j" := Null]);
      Merge(Merge(a, b), c) == c && Merge(a, Merge(b, c)) != c
  {
    var a, b, c := Object(map["k" := Null]), Null, Object(map["j" := Null]);
    assert "k" in Merge(a, Merge(b, c)).fields;
  }

  /** Every key of `a`, at any depth, is overwritten by `c`. */
  predicate Covers(c: Json, a: Json)
    decreases c
  {
    c.Object? && a.Object? ==> forall k :: k in a.fields ==> k in c.fields && Covers(c.fields[k], a.fields[k])
  }

  lemma {:induction false} CoversMeansReplaces(a: Json, c: Json)
    ensures Merge(a, c) == c <==> Covers(c, a)
    decreases c
  {
    if a.Object? && c.Object? {
      var m := Merge(a, c);
      forall k | k in a.fields && k in c.fields
        ensures m.fields[k] == c.fields[k] <==> Covers(c.fields[k], a.fields[k])
      {
        CoversMeansReplaces(a.fields[k], c.fields[k]);
      }
      if Covers(c, a) {
        assert m.fields.Keys == c.fields.Keys;
        assert m.fields == c.fields;
      }
      if m == c {
        forall k | k in a.fields
          ensures k in c.fields
        {
          assert k in m.fields;
        }
      }
    }
  }

  /** No scalar in `b` stands between two dictionaries, unless the last one overwrites all of
      the first. */
  predicate FoldsEitherWay(a: Json, b: Json, c: Json)
    decreases c
  {
    a.Object? && c.Object? ==>
      if b.Object? then
        forall k :: k in a.fields && k in b.fields && k in c.fields ==>
          FoldsEitherWay(a.fields[k], b.fields[k], c.fields[k])
      else Covers(c, a)
  }

  /** The order of folding does not matter exactly then. */
  lemma {:induction false} MergeAssociatesExactly(a: Json, b: Json, c: Json)
    ensures Merge(Merge(a, b), c) == Merge(a, Merge(b, c)) <==> FoldsEitherWay(a, b, c)
    decreases c
  {
    if a.Object? && c.Object? {
      if b.Object? {
        var left, right := Merge(Merge(a, b), c).fields, Merge(a, Merge(b, c)).fields;
        assert left.Keys == right.Keys;
        forall k | k in left
          ensures left[k] == right[k] <==>
            (k in a.fields && k in b.fields && k in c.fields ==> FoldsEitherWay(a.fields[k], b.fields[k], c.fields[k]))
        {
          if k in a.fields && k in b.fields && k in c.fields {
            MergeAssociatesExactly(a.fields[k], b.fields[k], c.fields[k]);
          }
        }
        if FoldsEitherWay(a, b, c) {
          assert left == right;
        }
      } else {
        CoversMeansReplaces(a, c);
      }
    }
  }

  // ---------------------------------------------------------------- inline secrets

  const SENSITIVE_KEYS := {
    "password", "passwd", "secret", "token", "private_key", "client_secret",
    "api_key", "authorization", "credential", "credentials"
  }

  function LoweredChar(c: char): char
  {
    if 'A' <= c <= 'Z' then (c as int + 32) as char else c
  }

  function Lowered(key: string): (lowered: string)
    ensures |lowered| == |key|
    ensures forall i :: 0 <= i < |key| ==>
      if 'A' <= key[i] <= 'Z' then 'a' <= lowered[i] <= 'z' && lowered[i] - 'a' == key[i] - 'A' else lowered[i] == key[i]
  {
    seq(|key|, i requires 0 <= i < |key| => LoweredChar(key[i]))
  }

  /** Every dictionary key at any depth, in lower case; lists are walked as well. */
  function NestedKeys(value: Json): set<string>
  {
    match value
    case Object(fields) =>
      (set k | k in fields :: Lowered(k)) + (set k, x | k in fields && x in NestedKeys(fields[k]) :: x)
    case List(items) =>
      set i, x | 0 <= i < |items| && x in NestedKeys(items[i]) :: x
    case _ => {}
  }

  predicate EndsWith(key: string, suffix: string)
  {
    |suffix| <= |key| && key[|key| - |suffix|..] == suffix
  }

  /** The check of a step command, with its exemption for reference-like keys. */
  predicate NoInlineSecrets(payload: Json)
  {
    var found := SENSITIVE_KEYS * NestedKeys(payload);
    var references := set key | key in found && (EndsWith(key, "_reference") || EndsWith(key, "_ref"));
    found - references == {}
  }

  // Where keys stand.

  /** A step down into a payload. */
  datatype Place = Field(key: string) | Item(index: nat)

  /** The dictionary at the end of the path holds the key. */
  predicate HasKey(value: Json, path: seq<Place>, key: string)
    decreases |path|
  {
    if path == [] then value.Object? && key in value.fields
    else
      match path[0]
      case Field(k) => value.Object? && k in value.fields && HasKey(value.fields[k], path[1..], key)
      case Item(i) => value.List? && i < |value.items| && HasKey(value.items[i], path[1..], key)
  }

  lemma {:induction false} KeyOnPath(value: Json, path: seq<Place>, key: string)
    requires HasKey(value, path, key)
    ensures Lowered(key) in NestedKeys(value)
    decreases |path|
  {
    hide Lowered;
    if path != [] {
      match path[0]
      case Field(k) => KeyOnPath(value.fields[k], path[1..], key);
      case Item(i) => KeyOnPath(value.items[i], path[1..], key);
    }
  }

  lemma {:induction false} PathToKey(value: Json, lowered: string) returns (path: seq<Place>, key: string)
    requires lowered in NestedKeys(value)
    ensures HasKey(value, path, key) && Lowered(key) == lowered
    decreases value
  {
    hide Lowered;
    path, key := [], "";
    if value.Object? {
      if k :| k in value.fields && lowered in NestedKeys(value.fields[k]) {
        path, key := PathToKey(value.fields[k], lowered);
        PathBelow(value, Field(k), path, key);
        path := [Field(k)] + path;
      } else {
        key :| key in value.fields && Lowered(key) == lowered;
      }
    } else {
      var i :| 0 <= i < |value.items| && lowered in NestedKeys(value.items[i]);
      path, key := PathToKey(value.items[i], lowered);
      PathBelow(value, Item(i), path, key);
      path := [Item(i)] + path;
    }
  }

  lemma PathBelow(value: Json, place: Place, path: seq<Place>, key: string)
    ensures place.Field? && value.Object? && place.key in value.fields && HasKey(value.fields[place.key], path, key) ==>
              HasKey(value, [place] + path, key)
    ensures place.Item? && value.List? && place.index < |value.items| && HasKey(value.items[place.index], path, key) ==>
              HasKey(value, [place] + path, key)
  {
    assert ([place] + path)[1..] == path;
  }

  predicate NamesSecret(key: string)
  {
    Lowered(key) in {"password", "passwd", "secret", "token", "private_key", "client_secret",
                     "api_key", "authorization", "credential", "credentials"}
  }

  /** A payload is refused exactly when somewhere in it, below any dictionaries and lists, a
      dictionary has a key that names a secret, in whatever case. */
  lemma SecretsAreRefused(payload: Json)
    ensures NoInlineSecrets(payload) <==> !(exists path, key :: HasKey(payload, path, key) && NamesSecret(key))
  {
    ReferenceExemptionIsIdle(payload);
    hide NoInlineSecrets, Lowered, NestedKeys;
    if path, key :| HasKey(payload, path, key) && NamesSecret(key) {
      KeyOnPath(payload, path, key);
      assert Lowered(key) in SENSITIVE_KEYS;
    }
    if x :| x in SENSITIVE_KEYS && x in NestedKeys(payload) {
      var path, key := PathToKey(payload, x);
      assert HasKey(payload, path, key) && NamesSecret(key);
    }
  }

  lemma EndsWithLast(key: string, suffix: string)
    requires suffix != [] && EndsWith(key, suffix)
    ensures key != [] && key[|key| - 1] == suffix[|suffix| - 1]
  {
    assert key[|key| - |suffix|..][|suffix| - 1] == key[|key| - 1];
  }

  lemma SensitiveKeysLast(key: string)
    requires key in SENSITIVE_KEYS
    ensures key != [] && key[|key| - 1] in "dtnyls"
  {
  }

  /** The exemption never applies: no sensitive key looks like a reference, so the step
      check accepts exactly the payloads the stricter action check accepts. */
  lemma ReferenceExemptionIsIdle(payload: Json)
    ensures NoInlineSecrets(payload) <==> SENSITIVE_KEYS !! NestedKeys(payload)
  {
    var found := SENSITIVE_KEYS * NestedKeys(payload);
    forall key | key in found
      ensures !EndsWith(key, "_reference") && !EndsWith(key, "_ref")
    {
      SensitiveKeysLast(key);
      if EndsWith(key, "_reference") {
        EndsWithLast(key, "_reference");
      }
      if EndsWith(key, "_ref") {
        EndsWithLast(key, "_ref");
      }
    }
    var references := set key | key in found && (EndsWith(key, "_reference") || EndsWith(key, "_ref"));
    assert references == {};
    assert found - references == found;
    assert found == {} <==> SENSITIVE_KEYS !! NestedKeys(payload) by {
      hide *;
      DisjointMeansEmpty(SENSITIVE_KEYS, NestedKeys(payload));
    }
  }

  lemma DisjointMeansEmpty<T>(a: set<T>, b: set<T>)
    ensures a * b == {} <==> a !! b
  {
    if a * b == {} {
      forall x | x in a
        ensures x !in b
      {
        assert x in b ==> x in a * b;
      }
    }
  }

  lemma {:induction false} MergeKeysBounded(a: Json, b: Json)
    ensures NestedKeys(Merge(a, b)) <= NestedKeys(a) + NestedKeys(b)
    decreases b
  {
    if a.Object? && b.Object? {
      var m := Merge(a, b);
      forall x | x in NestedKeys(m)
        ensures x in NestedKeys(a) + NestedKeys(b)
      {
        if k :| k in m.fields && x in NestedKeys(m.fields[k]) {
          if k in a.fields && k in b.fields {
            MergeKeysBounded(a.fields[k], b.fields[k]);
          }
        } else {
          var k :| k in m.fields && x == Lowered(k);
          assert k in a.fields || k in b.fields;
        }
      }
    }
  }

  lemma OverlayKeysBounded(a: Json, b: Json)
    ensures NestedKeys(Overlay(a, b)) <= NestedKeys(a) + NestedKeys(b)
  {
    if a.Object? && b.Object? {
      var m := Overlay(a, b);
      forall x | x in NestedKeys(m)
        ensures x in NestedKeys(a) + NestedKeys(b)
      {
        if k :| k in m.fields && x in NestedKeys(m.fields[k]) {
          assert k in b.fields || k in a.fields;
        } else {
          var k :| k in m.fields && x == Lowered(k);
          assert k in a.fields || k in b.fields;
        }
      }
    }
  }

  /** Stored commands stay free of inline secrets through every rebuild: the payload read
      back from a history, and a new request enriched with it. */
  lemma {:induction false} RebuiltPayloadsStayClean(stored: seq<Json>, raw: Json)
    requires forall p :: p in stored ==> NoInlineSecrets(p)
    requires NoInlineSecrets(raw)
    ensures NoInlineSecrets(FoldMerge(stored))
    ensures NoInlineSecrets(Overlay(FoldMerge(stored), raw))
  {
    ReferenceExemptionIsIdle(raw);
    ReferenceExemptionIsIdle(FoldMerge(stored));
    ReferenceExemptionIsIdle(Overlay(FoldMerge(stored), raw));
    if stored != [] {
      var init, last := stored[..|stored| - 1], stored[|stored| - 1];
      RebuiltPayloadsStayClean(init, raw);
      ReferenceExemptionIsIdle(last);
      ReferenceExemptionIsIdle(FoldMerge(init));
      MergeKeysBounded(FoldMerge(init), last);
    }
    OverlayKeysBounded(FoldMerge(stored), raw);
  }
}
