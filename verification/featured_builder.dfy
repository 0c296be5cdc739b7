/** The featured-listings section: it takes the builders and the builder
    projects (or the built-in fallback data), groups the projects by the
    normalised builder name, indexes the known builders by the same key, and
    renders one row per key, synthesising a row for a builder that is only
    named by its projects. */
module FeaturedBuilder {
  import opened Js
  import opened Seqs
  import opened Records
  import opened Keyed
  import Api

  // ---------------------------------------------------------------------------
  // normalize

  /** The whitespace `trim` removes, restricted to ASCII: space, tab, line feed,
      vertical tab, form feed, carriage return. */
  predicate IsSpace(c: char) {
    c == ' ' || '\t' <= c <= '\r'
  }

  /** The index of the first non-whitespace character of `s` at or after `i`. */
  function ContentStart(s: string, i: nat): (k: nat)
    requires i <= |s|
    ensures i <= k <= |s| && (k == |s| || !IsSpace(s[k]))
    ensures forall j :: i <= j < k ==> IsSpace(s[j])
    decreases |s| - i
  {
    if i < |s| && IsSpace(s[i]) then ContentStart(s, i + 1) else i
  }

  /** The index just past the last non-whitespace character of `s` before `j`, no lower than `lo`. */
  function ContentEnd(s: string, lo: nat, j: nat): (k: nat)
    requires lo <= j <= |s|
    ensures lo <= k <= j && (k == lo || !IsSpace(s[k - 1]))
    ensures forall m :: k <= m < j ==> IsSpace(s[m])
    decreases j
  {
    if j > lo && IsSpace(s[j - 1]) then ContentEnd(s, lo, j - 1) else j
  }

  predicate Trimmed(s: string) {
    |s| == 0 || (!IsSpace(s[0]) && !IsSpace(s[|s| - 1]))
  }

  /** `s.trim()`: a middle slice of `s` with no whitespace at either end. */
  function Trim(s: string): (r: string)
    ensures Trimmed(r) && |r| <= |s|
  {
    var a := ContentStart(s, 0);
    s[a..ContentEnd(s, a, |s|)]
  }

  /** `Trim(s)` is `s[a..b]`, where `a` and `b` cut off the leading and the trailing whitespace. */
  lemma TrimSlice(s: string) returns (a: nat, b: nat)
    ensures a <= b <= |s| && Trim(s) == s[a..b]
    ensures forall j :: 0 <= j < a ==> IsSpace(s[j])
    ensures forall j :: b <= j < |s| ==> IsSpace(s[j])
    ensures a < b ==> !IsSpace(s[a]) && !IsSpace(s[b - 1])
    ensures a == b ==> a == |s|
  {
    a := ContentStart(s, 0);
    b := ContentEnd(s, a, |s|);
  }

  /** Any cut of `s` into whitespace, a trimmed middle and whitespace has `Trim(s)` as its middle. */
  lemma TrimUnique(s: string, a: nat, b: nat)
    requires a <= b <= |s|
    requires forall j :: 0 <= j < a ==> IsSpace(s[j])
    requires forall j :: b <= j < |s| ==> IsSpace(s[j])
    requires a < b ==> !IsSpace(s[a]) && !IsSpace(s[b - 1])
    requires a == b ==> forall j :: 0 <= j < |s| ==> IsSpace(s[j])
    ensures Trim(s) == s[a..b]
  {
    var a', b' := TrimSlice(s);
    if a < b {
      assert a' == a;
      assert b' == b;
    } else {
      assert a' == b';
    }
  }

  lemma TrimmedIsFixed(s: string)
    requires Trimmed(s)
    ensures Trim(s) == s
  {
    TrimUnique(s, 0, |s|);
  }

  function LowerChar(c: char): (d: char)
    ensures IsSpace(d) == IsSpace(c) && ('A' <= d <= 'Z' ==> false)
    ensures !('A' <= c <= 'Z') ==> d == c
  {
    if 'A' <= c <= 'Z' then (c as int + 32) as char else c
  }

  /** `s.toLowerCase()`, restricted to ASCII letters. */
  function Lower(s: string): (r: string)
    ensures |r| == |s| && forall i :: 0 <= i < |s| ==> r[i] == LowerChar(s[i])
  {
    seq(|s|, i requires 0 <= i < |s| => LowerChar(s[i]))
  }

  /** `(s || "").toString().trim().toLowerCase()`: a key with no whitespace at
      either end and no upper-case letter, "" for a missing or empty name. */
  function Normalize(s: OptStr): (key: string)
    ensures !Truthy(s) ==> key == ""
    ensures Truthy(s) ==> |key| <= |s.value|
    ensures Trimmed(key) && forall i :: 0 <= i < |key| ==> !('A' <= key[i] <= 'Z')
  {
    if Truthy(s) then
      var t := Trim(s.value);
      var key := Lower(t);
      assert |key| > 0 ==> key[0] == LowerChar(t[0]) && key[|key| - 1] == LowerChar(t[|t| - 1]);
      key
    else ""
  }

  /** Normalising a normalised name changes nothing. */
  lemma NormalizeIdempotent(s: OptStr)
    ensures Normalize(Some(Normalize(s))) == Normalize(s)
  {
    if Truthy(s) {
      LowerOfTrimmed(Trim(s.value));
    }
  }

  lemma LowerOfTrimmed(t: string)
    requires Trimmed(t)
    ensures Trimmed(Lower(t)) && Trim(Lower(t)) == Lower(t) && Lower(Lower(t)) == Lower(t)
  {
    var n := Lower(t);
    if |t| > 0 {
      assert n[0] == LowerChar(t[0]) && n[|n| - 1] == LowerChar(t[|t| - 1]);
    }
    TrimmedIsFixed(n);
    LowerTwice(t);
  }

  /** Whitespace before a name does not change its key. */
  lemma NormalizeIgnoresLeadingSpace(c: char, name: string)
    requires IsSpace(c)
    ensures Normalize(Some([c] + name)) == Normalize(Some(name))
  {
    NormalizeNonEmpty([c] + name);
    TrimLeadingSpace(c, name);
    if name == "" {
      EmptyTrim();
    } else {
      NormalizeNonEmpty(name);
    }
  }

  /** Whitespace after a name does not change its key. */
  lemma NormalizeIgnoresTrailingSpace(c: char, name: string)
    requires IsSpace(c)
    ensures Normalize(Some(name + [c])) == Normalize(Some(name))
  {
    NormalizeNonEmpty(name + [c]);
    TrimTrailingSpace(c, name);
    if name == "" {
      EmptyTrim();
    } else {
      NormalizeNonEmpty(name);
    }
  }

  lemma NormalizeNonEmpty(x: string)
    requires x != ""
    ensures Normalize(Some(x)) == Lower(Trim(x))
  {
  }

  lemma EmptyTrim()
    ensures Lower(Trim("")) == ""
  {
  }

  /** Names that differ only in the case of their letters share a key. */
  lemma NormalizeIgnoresCase(name: string)
    ensures Normalize(Some(Lower(name))) == Normalize(Some(name))
  {
    LowerTrims(name);
  }

  lemma TrimLeadingSpace(c: char, name: string)
    requires IsSpace(c)
    ensures Trim([c] + name) == Trim(name)
  {
    var a, b := TrimSlice(name);
    var t := [c] + name;
    TrimUnique(t, a + 1, b + 1);
    assert t[a + 1..b + 1] == name[a..b];
  }

  lemma TrimTrailingSpace(c: char, name: string)
    requires IsSpace(c)
    ensures Trim(name + [c]) == Trim(name)
  {
    var a, b := TrimSlice(name);
    var t := name + [c];
    if a < b {
      TrimUnique(t, a, b);
      assert t[a..b] == name[a..b];
    } else {
      TrimUnique(t, |t|, |t|);
    }
  }

  /** Lower-casing commutes with trimming, since it maps whitespace to itself. */
  lemma LowerTrims(s: string)
    ensures Lower(Trim(Lower(s))) == Lower(Trim(s))
  {
    var a, b := TrimSlice(s);
    var l := Lower(s);
    TrimUnique(l, a, b);
    assert l[a..b] == Lower(s[a..b]);
    LowerTwice(s[a..b]);
  }

  lemma LowerTwice(s: string)
    ensures Lower(Lower(s)) == Lower(s)
  {
  }

  // ---------------------------------------------------------------------------
  // Builders and images

  /** An image value: absent (`undefined`/`null`), a path string, or an
      imported module whose `src` may be absent. */
  datatype Img = NoImg | Path(s: string) | Module(src: OptStr)

  /** A builder from the builders endpoint or the fallback data. */
  datatype Builder = Builder(id: OptStr, name: OptStr, logo: Img)

  /** `getImgSrc(img)`. `logoSrc` is `LogoFallback.src`, the path the bundler
      gives the imported fallback logo. */
  function ImgSrc(img: Img, logoSrc: OptStr): (r: string)
    ensures r != ""
    ensures img.Path? && img.s != "" ==> r == img.s
    ensures img.Module? && Truthy(img.src) ==> r == img.src.value
    ensures img.NoImg? || img == Path("") || (img.Module? && !Truthy(img.src)) ==> r == FallbackLogo(logoSrc)
  {
    match img
    case NoImg => FallbackLogo(logoSrc)
    case Path(s) => if s == "" then FallbackLogo(logoSrc) else s
    case Module(src) => if Truthy(src) then src.value else FallbackLogo(logoSrc)
  }

  /** `LogoFallback.src || "/logo.jpg"`. */
  function FallbackLogo(logoSrc: OptStr): (r: string)
    ensures r != ""
  {
    if Truthy(logoSrc) then logoSrc.value else "/logo.jpg"
  }

  // ---------------------------------------------------------------------------
  // The fallback data

  const FallbackBuilders: seq<Builder> := [
    Builder(Some("fallback-builder-1"), Some("DLF Limited"), Path("/img/dlf_logo.jpg")),
    Builder(Some("fallback-builder-2"), Some("Emaar India"), Path("/img/emarLogo.jpg"))
  ]

  const FallbackProjects: seq<Property> := [
    EmptyRecord.(id := Some("fallback-prop-1"), kind := Some("builder"), projectName := Some("DLF The Aralias"),
                 builder := Embedded(None, Some("DLF Limited"), Some("/img/dlf_logo.jpg")),
                 city := Embedded(None, Some("Gurgaon"), None), minPrice := Some(5000000), maxPrice := Some(15000000),
                 displayImage := Some("/img/dlf_background.jpg"), propertyAction := Some("Sale"),
                 subcategoryName := Some("Apartment"), possessionDate := Some("2025")),
    EmptyRecord.(id := Some("fallback-prop-2"), kind := Some("builder"), projectName := Some("Emaar Palm Heights"),
                 builder := Embedded(None, Some("Emaar India"), Some("/img/emarLogo.jpg")),
                 city := Embedded(None, Some("Gurgaon"), None), minPrice := Some(8000000), maxPrice := Some(20000000),
                 displayImage := Some("/img/emar_background.jpg"), propertyAction := Some("Sale"),
                 subcategoryName := Some("Villa"), possessionDate := Some("2026"))
  ]

  // ---------------------------------------------------------------------------
  // Response or fallback

  /** A resolved `getAll` value: `null`, a bare array, or an object with
      optional `data`, `error` and `fallback` keys. */
  datatype Reply<T> = NullReply | Bare(items: seq<T>) | Envelope(data: Option<seq<T>>, error: OptStr, fallback: bool)

  /** What ends up in state: a list, or an object without `data`, which the
      grouping loop cannot iterate. */
  datatype Stored<T> = Items(items: seq<T>) | NotIterable

  /** The reply `apiCall` resolves to, seen as a reply: a failure is
      `{data: [], error}`, and `undefined` reads like `null`. */
  function ReplyOf<T>(o: Api.Outcome<Reply<T>>): Reply<T> {
    match o
    case Data(doc) => doc
    case ErrorResult(e) => Envelope(Some([]), Some(e), false)
    case Undefined => NullReply
  }

  /** The selection for one response: the fallback when it carries a truthy
      `error` or `fallback`, else `data || response || []`. */
  function Choose<T>(r: Reply<T>, fallback: seq<T>): (s: Stored<T>)
    requires !r.NullReply?
    ensures r.Envelope? && (Truthy(r.error) || r.fallback) ==> s == Items(fallback)
    ensures r.Envelope? && !Truthy(r.error) && !r.fallback ==>
              s == if r.data.Some? then Items(r.data.value) else NotIterable
    ensures r.Bare? ==> s == Items(r.items)
  {
    match r
    case Bare(items) => Items(items)
    case Envelope(data, error, fb) =>
      if Truthy(error) || fb then Items(fallback)
      else if data.Some? then Items(data.value) else NotIterable
  }

  /** Both selections. Reading `.error` of a `null` reply throws, and the catch
      block puts the fallback data in both lists. */
  function FeaturedState(br: Reply<Builder>, pr: Reply<Property>): (s: (Stored<Builder>, Stored<Property>))
    ensures br.NullReply? || pr.NullReply? ==> s == (Items(FallbackBuilders), Items(FallbackProjects))
    ensures !br.NullReply? && !pr.NullReply? ==> s == (Choose(br, FallbackBuilders), Choose(pr, FallbackProjects))
  {
    if br.NullReply? || pr.NullReply? then (Items(FallbackBuilders), Items(FallbackProjects))
    else (Choose(br, FallbackBuilders), Choose(pr, FallbackProjects))
  }

  /** A call that failed with a non-empty message shows the fallback data; one
      that failed with an empty message shows an empty list. */
  lemma FailedCallUsesFallback<T>(e: string, fallback: seq<T>)
    ensures e != "" ==> Choose(ReplyOf(Api.ErrorResult(e)), fallback) == Items(fallback)
    ensures e == "" ==> Choose(ReplyOf(Api.ErrorResult(e)), fallback) == Items([])
  {
  }

  // ---------------------------------------------------------------------------
  // The keys

  /** `typeof b === 'object' ? b?.name : b`: the name of an embedded builder,
      the bare string itself, nothing for `undefined` or `null`. */
  function BuilderName(b: Ref): OptStr {
    match b
    case Undefined => None
    case Null => None
    case Id(s) => Some(s)
    case Embedded(_, name, _) => name
  }

  /** The group key of a project: `normalize(builderName || "")`. The `|| ""`
      changes nothing: the key is the normalised name of an embedded builder,
      the normalised bare string, and "" when the builder is missing. */
  function ProjectKey(p: Property): (key: string)
    ensures key == Normalize(BuilderName(p.builder))
    ensures p.builder.Embedded? ==> key == Normalize(p.builder.name)
    ensures p.builder.Id? ==> key == Normalize(Some(p.builder.s))
    ensures p.builder == Undefined || p.builder == Null ==> key == ""
  {
    Normalize(Or(BuilderName(p.builder), Some("")))
  }

  /** The key of a known builder: `normalize(b.name)`, the key a project
      embedding that builder is grouped under; "" for a builder without a name. */
  function BuilderKey(b: Builder): (key: string)
    ensures key == ProjectKey(EmptyRecord.(builder := Embedded(b.id, b.name, None)))
    ensures !Truthy(b.name) ==> key == ""
  {
    Normalize(b.name)
  }

  /** Projects whose builder names differ only in letter case land in one group. */
  lemma CaseInsensitiveGrouping(p: Property, q: Property, name: string)
    requires BuilderName(p.builder) == Some(name) && BuilderName(q.builder) == Some(Lower(name))
    ensures ProjectKey(p) == ProjectKey(q)
  {
    NormalizeIgnoresCase(name);
  }

  /** A builder and a project name spelled with surrounding whitespace and in
      another case still meet under one key. */
  lemma BuilderMeetsItsProjects(b: Builder, p: Property, name: string, c: char)
    requires IsSpace(c)
    requires b.name == Some(name) && BuilderName(p.builder) == Some([c] + Lower(name))
    ensures BuilderKey(b) == ProjectKey(p)
  {
    NormalizeIgnoresLeadingSpace(c, Lower(name));
    NormalizeIgnoresCase(name);
  }

  /** A project that names its builder only by `_id` is grouped under the
      empty key, not under that id, while a bare id string is its own key. */
  lemma IdOnlyBuilderHasEmptyKey(id: string)
    requires id != "" && Trimmed(id) && Lower(id) == id
    ensures ProjectKey(EmptyRecord.(builder := Embedded(Some(id), None, None))) == ""
    ensures ProjectKey(EmptyRecord.(builder := Id(id))) == id
  {
    EmptyTrim();
    NormalizeNonEmpty(id);
    TrimmedIsFixed(id);
  }

  // ---------------------------------------------------------------------------
  // The rows

  /** `Array.from(new Set([...projectsByBuilder.keys(), ...knownBuilders.keys()]))`. */
  function RowKeys(groupKeys: seq<string>, knownKeys: seq<string>): seq<string> {
    Dedup(groupKeys + knownKeys)
  }

  /** The row keys hold no repetition, are exactly the keys of either map,
      and start with the project keys in their own order. */
  lemma RowKeysUnion(groupKeys: seq<string>, knownKeys: seq<string>)
    requires Distinct(groupKeys)
    ensures Distinct(RowKeys(groupKeys, knownKeys))
    ensures forall k :: k in RowKeys(groupKeys, knownKeys) <==> k in groupKeys || k in knownKeys
    ensures |groupKeys| <= |RowKeys(groupKeys, knownKeys)| && RowKeys(groupKeys, knownKeys)[..|groupKeys|] == groupKeys
  {
    DedupAppend(groupKeys, knownKeys);
    DedupOfDistinct(groupKeys);
  }

  /** A merged row: a known builder, or a synthesised one with no logo and no background. */
  datatype Row = Known(builder: Builder) | Dynamic(id: string, name: OptStr)

  function RowName(r: Row): OptStr {
    if r.Known? then r.builder.name else r.name
  }

  /** `` `dyn-${idx}-${key}` ``. */
  function DynId(idx: nat, key: string): string {
    "dyn-" + NatToString(idx) + "-" + key
  }

  /** The display name of an unknown key: the builder name of its first
      project, or the key itself when it has none. */
  function DisplayName(groups: OrderedMap<seq<Property>>, key: string): (name: OptStr)
    ensures GroupOf(groups, key) != [] ==> name == BuilderName(GroupOf(groups, key)[0].builder)
    ensures GroupOf(groups, key) == [] ==> name == Some(key)
  {
    var ps := GroupOf(groups, key);
    if |ps| > 0 then BuilderName(ps[0].builder) else Some(key)
  }

  /** `keys.map((key, idx) => known ? known : {id: dyn-…, name: …})`. */
  function MergeRows(keys: seq<string>, groups: OrderedMap<seq<Property>>, known: OrderedMap<Builder>): (rows: seq<Row>)
    ensures |rows| == |keys|
    ensures forall i :: 0 <= i < |keys| ==> (rows[i].Known? <==> keys[i] in known.values)
    ensures forall i :: 0 <= i < |keys| && keys[i] in known.values ==> rows[i] == Known(known.values[keys[i]])
    ensures forall i :: 0 <= i < |keys| && keys[i] !in known.values ==> rows[i] == Dynamic(DynId(i, keys[i]), DisplayName(groups, keys[i]))
  {
    seq(|keys|, i requires 0 <= i < |keys| =>
      if keys[i] in known.values then Known(known.values[keys[i]])
      else Dynamic(DynId(i, keys[i]), DisplayName(groups, keys[i])))
  }

  /** Distinct row positions give distinct synthesised ids, whatever the keys. */
  lemma DynIdInjective(i: nat, j: nat, k: string, l: string)
    requires DynId(i, k) == DynId(j, l)
    ensures i == j && k == l
  {
    var a, b := NatToString(i), NatToString(j);
    var x := DynId(i, k);
    assert x == "dyn-" + a + "-" + k && x == "dyn-" + b + "-" + l;
    assert x[4 + |a|] == '-' && x[4 + |b|] == '-';
    assert a == x[4..4 + |a|] == b;
    NatToStringInjective(i, j);
    assert k == x[5 + |a|..] == l;
  }

  /** What the render relies on for the row at position `i` with key `key`:
      the row's name normalises back to the key, the group looked up under it
      is exactly the projects with that key, the row is the last builder with
      that key when there is one, and otherwise a synthesised row whose id
      carries its position and whose name is the builder name of the first
      project with that key. */
  predicate RowFits(projects: seq<Property>, builders: seq<Builder>, groups: OrderedMap<seq<Property>>,
                    key: string, i: nat, row: Row) {
    && Normalize(RowName(row)) == key
    && GroupOf(groups, key) == Filter(projects, HasKey(ProjectKey, key))
    && (row.Known? <==> LastWith(builders, BuilderKey, key).Some?)
    && (row.Known? ==> LastWith(builders, BuilderKey, key) == Some(row.builder))
    && (row.Dynamic? ==> row.id == DynId(i, key))
    && (row.Dynamic? ==> |Filter(projects, HasKey(ProjectKey, key))| > 0 &&
                         row.name == BuilderName(Filter(projects, HasKey(ProjectKey, key))[0].builder))
  }

  /** The whole section: group the projects, index the builders, merge. */
  method FeaturedRows(projects: seq<Property>, builders: seq<Builder>)
    returns (rows: seq<Row>, keys: seq<string>, groups: OrderedMap<seq<Property>>)
    ensures keys == RowKeys(Dedup(KeysOf(projects, ProjectKey)), Dedup(KeysOf(builders, BuilderKey)))
    ensures Distinct(keys) && |rows| == |keys|
    ensures forall k :: k in keys <==> (exists p :: p in projects && ProjectKey(p) == k) || (exists b :: b in builders && BuilderKey(b) == k)
    ensures forall i :: 0 <= i < |rows| ==> RowFits(projects, builders, groups, keys[i], i, rows[i])
  {
    groups := GroupBy(projects, ProjectKey);
    var known := IndexBy(builders, BuilderKey);
    keys := RowKeys(groups.keys, known.keys);
    rows := MergeRows(keys, groups, known);
    MergedKeys(projects, builders, groups, known);
    MergedRows(projects, builders, groups, known, keys);
  }

  /** The row keys are the keys of the projects and of the builders, each once. */
  lemma RowKeysOf(projects: seq<Property>, builders: seq<Builder>, groupKeys: seq<string>, knownKeys: seq<string>)
    requires groupKeys == Dedup(KeysOf(projects, ProjectKey)) && knownKeys == Dedup(KeysOf(builders, BuilderKey))
    ensures Distinct(RowKeys(groupKeys, knownKeys))
    ensures forall k :: k in RowKeys(groupKeys, knownKeys) <==>
      (exists p :: p in projects && ProjectKey(p) == k) || (exists b :: b in builders && BuilderKey(b) == k)
  {
    RowKeysUnion(groupKeys, knownKeys);
    KeysOfMembers(projects, ProjectKey);
    KeysOfMembers(builders, BuilderKey);
  }

  /** The keys of the merged rows: those of both maps, each once. */
  lemma MergedKeys(projects: seq<Property>, builders: seq<Builder>, groups: OrderedMap<seq<Property>>, known: OrderedMap<Builder>)
    requires IsGrouping(groups, projects, ProjectKey)
    requires IsIndex(known, builders, BuilderKey)
    ensures RowKeys(groups.keys, known.keys) == RowKeys(Dedup(KeysOf(projects, ProjectKey)), Dedup(KeysOf(builders, BuilderKey)))
    ensures Distinct(RowKeys(groups.keys, known.keys))
    ensures forall k :: k in RowKeys(groups.keys, known.keys) <==>
      (exists p :: p in projects && ProjectKey(p) == k) || (exists b :: b in builders && BuilderKey(b) == k)
  {
    RowKeysOf(projects, builders, groups.keys, known.keys);
  }

  /** Every merged row fits its key. */
  lemma MergedRows(projects: seq<Property>, builders: seq<Builder>, groups: OrderedMap<seq<Property>>,
                   known: OrderedMap<Builder>, keys: seq<string>)
    requires IsGrouping(groups, projects, ProjectKey)
    requires IsIndex(known, builders, BuilderKey)
    requires keys == RowKeys(groups.keys, known.keys)
    ensures forall i :: 0 <= i < |keys| ==> RowFits(projects, builders, groups, keys[i], i, MergeRows(keys, groups, known)[i])
  {
    var rows := MergeRows(keys, groups, known);
    RowKeysUnion(groups.keys, known.keys);
    forall i | 0 <= i < |keys| ensures RowFits(projects, builders, groups, keys[i], i, rows[i]) {
      RowNameKey(projects, builders, groups, known, keys[i], rows[i], i);
    }
  }

  /** The name of the row for `key` normalises back to `key`, and the group the
      render looks up under `key` is exactly the projects with that key. */
  lemma RowNameKey(projects: seq<Property>, builders: seq<Builder>, groups: OrderedMap<seq<Property>>,
                   known: OrderedMap<Builder>, key: string, row: Row, i: nat)
    requires IsGrouping(groups, projects, ProjectKey)
    requires WellFormed(known)
    requires forall k :: k in known.values ==> LastWith(builders, BuilderKey, k) == Some(known.values[k])
    requires key in groups.keys || key in known.keys
    requires row == if key in known.values then Known(known.values[key]) else Dynamic(DynId(i, key), DisplayName(groups, key))
    ensures Normalize(RowName(row)) == key
    ensures GroupOf(groups, key) == Filter(projects, HasKey(ProjectKey, key))
    ensures row.Dynamic? ==> |Filter(projects, HasKey(ProjectKey, key))| > 0 &&
                             row.name == BuilderName(Filter(projects, HasKey(ProjectKey, key))[0].builder)
  {
    if key !in groups.values {
      NoneWithKey(projects, ProjectKey, key);
    }
    if key in known.values {
      KnownRowKey(builders, key, known.values[key]);
    } else {
      GroupedRowKey(projects, groups, key);
    }
  }

  /** The builder the index keeps under `key` has that key. */
  lemma KnownRowKey(builders: seq<Builder>, key: string, b: Builder)
    requires LastWith(builders, BuilderKey, key) == Some(b)
    ensures Normalize(b.name) == key
  {
    assert BuilderKey(b) == key;
  }

  /** A key of the grouping has a non-empty group whose first project names it. */
  lemma GroupedRowKey(projects: seq<Property>, groups: OrderedMap<seq<Property>>, key: string)
    requires IsGrouping(groups, projects, ProjectKey)
    requires key in groups.keys
    ensures |GroupOf(groups, key)| > 0 && Normalize(DisplayName(groups, key)) == key
  {
    var ps := GroupOf(groups, key);
    KeysOfMembers(projects, ProjectKey);
    var p :| p in projects && ProjectKey(p) == key;
    FilterMembers(projects, HasKey(ProjectKey, key));
    assert p in ps;
    assert ps[0] in ps;
    assert ProjectKey(ps[0]) == key;
  }
}
