/**
 * The capability summariser and the pattern detector, over the categorized imports
 * (category -> names, as `Categorize.Categorized` produces them).
 */
module Analyze {
  import opened Wrappers
  import opened Dicts
  import opened Text
  import opened SortedSets
  import Categorize

  /** Category -> human-readable text. Its order is the order in which missing categories are added. */
  const CATEGORY_DESCRIPTIONS: Dict<string, string> := [
    ("file_io", "Can create, read, write, or delete files on disk."),
    ("network", "Can communicate over the network (e.g., sockets or HTTP)."),
    ("registry", "Can read or modify Windows registry keys."),
    ("process_injection", "Imports APIs commonly associated with process injection."),
    ("process_management", "Can create or manage other processes."),
    ("crypto", "Uses cryptographic APIs for encryption, decryption, or key handling."),
    ("unknown", "Uses APIs that are not yet categorized.")
  ]

  const PROCESS_INJECTION_COMBO := "process_injection_combo"
  const NETWORK_AND_FILE_IO := "network_and_file_io"
  const REGISTRY_PERSISTENCE := "registry_persistence"

  /** Pattern id -> human-readable text; only ever read with `.get`. */
  const PATTERN_DESCRIPTIONS: map<string, string> := map[
    PROCESS_INJECTION_COMBO :=
      "Process injection combo detected: uses OpenProcess, VirtualAllocEx, "
      + "and WriteProcessMemory (classic code injection pattern).",
    NETWORK_AND_FILE_IO :=
      "Has both networking and file I/O capabilities, which may allow downloading "
      + "or exfiltrating data.",
    REGISTRY_PERSISTENCE :=
      "Can modify the registry, which can be used for configuration or persistence."
  ]

  /** The lower-cased names whose joint presence is the process-injection combo. */
  const INJECTION_TRIAD: set<string> := {"openprocess", "virtualallocex", "writeprocessmemory"}

  const MAX_EXAMPLES := 5

  /** The record kept per category. */
  datatype Capability = Capability(present: bool, count: nat, examples: seq<string>, description: string)

  // ----- compute_capabilities -----

  /** `sorted(set(funcs))[:5]`. */
  function Examples(funcs: seq<string>): seq<string> {
    var s := SortedSet(funcs);
    if |s| <= MAX_EXAMPLES then s else s[..MAX_EXAMPLES]
  }

  /**
   * The examples are at most five names of the list, sorted without duplicates, and they
   * are its smallest distinct names: a name left out comes after all five.
   */
  lemma ExamplesSpec(funcs: seq<string>)
    ensures |Examples(funcs)| <= MAX_EXAMPLES
    ensures StrictlySorted(Examples(funcs))
    ensures forall i, j :: 0 <= i < j < |Examples(funcs)| ==> Examples(funcs)[i] != Examples(funcs)[j]
    ensures forall x :: x in Examples(funcs) ==> x in funcs
    ensures forall x :: x in funcs && x !in Examples(funcs) ==>
              |Examples(funcs)| == MAX_EXAMPLES && forall y :: y in Examples(funcs) ==> Below(y, x)
  {
    var s := SortedSet(funcs);
    var e := Examples(funcs);
    SortedSetSpec(funcs);
    StrictlySortedIsDistinct(e);
    forall x | x in funcs && x !in e
      ensures |e| == MAX_EXAMPLES && forall y :: y in e ==> Below(y, x)
    {
      var k :| 0 <= k < |s| && s[k] == x;
      forall y | y in e ensures Below(y, x) {
        var m :| 0 <= m < |e| && e[m] == y;
        assert s[m] == y;
      }
    }
  }

  function PresentRecord(descriptions: Dict<string, string>, category: string, funcs: seq<string>): Capability {
    Capability(true, |funcs|, Examples(funcs), GetOr(descriptions, category, ""))
  }

  function AbsentRecord(description: string): Capability {
    Capability(false, 0, [], description)
  }

  /** What the first loop builds: a record for each category with a non-empty list. */
  function Observed(descriptions: Dict<string, string>, categorized: Dict<string, seq<string>>): Dict<string, Capability> {
    if categorized == [] then []
    else
      var prev := Observed(descriptions, categorized[..|categorized| - 1]);
      var (category, funcs) := categorized[|categorized| - 1];
      if funcs == [] then prev else Put(prev, category, PresentRecord(descriptions, category, funcs))
  }

  /** What the second loop adds: a default record for each listed category still missing. */
  function Backfill(caps: Dict<string, Capability>, table: Dict<string, string>): Dict<string, Capability> {
    if table == [] then caps
    else
      var prev := Backfill(caps, table[..|table| - 1]);
      var (category, description) := table[|table| - 1];
      if category in Keys(prev) then prev else Put(prev, category, AbsentRecord(description))
  }

  /** The result of `compute_capabilities` for a description table; the source's is `CATEGORY_DESCRIPTIONS`. */
  function Capabilities(descriptions: Dict<string, string>, categorized: Dict<string, seq<string>>): Dict<string, Capability> {
    Backfill(Observed(descriptions, categorized), descriptions)
  }

  method ComputeCapabilities(categorized: Dict<string, seq<string>>) returns (capabilities: Dict<string, Capability>)
    ensures capabilities == Capabilities(CATEGORY_DESCRIPTIONS, categorized)
  {
    capabilities := [];
    for i := 0 to |categorized|
      invariant capabilities == Observed(CATEGORY_DESCRIPTIONS, categorized[..i])
    {
      assert categorized[..i + 1][..i] == categorized[..i];
      var (category, funcs) := categorized[i];
      if funcs == [] {
        continue;
      }
      capabilities := Put(capabilities, category, Capability(
        true, |funcs|, Examples(funcs), GetOr(CATEGORY_DESCRIPTIONS, category, "")));
    }
    assert categorized[..|categorized|] == categorized;
    ghost var observed := capabilities;
    for i := 0 to |CATEGORY_DESCRIPTIONS|
      invariant capabilities == Backfill(observed, CATEGORY_DESCRIPTIONS[..i])
    {
      assert CATEGORY_DESCRIPTIONS[..i + 1][..i] == CATEGORY_DESCRIPTIONS[..i];
      var (category, description) := CATEGORY_DESCRIPTIONS[i];
      if category !in Keys(capabilities) {
        capabilities := Put(capabilities, category, Capability(false, 0, [], description));
      }
    }
    assert CATEGORY_DESCRIPTIONS[..|CATEGORY_DESCRIPTIONS|] == CATEGORY_DESCRIPTIONS;
  }

  /** `categorized.get(category)` is a non-empty list. */
  predicate HasNames(categorized: Dict<string, seq<string>>, category: string) {
    Get(categorized, category).Some? && Get(categorized, category).value != []
  }

  lemma {:induction false} ObservedLookup(descriptions: Dict<string, string>, categorized: Dict<string, seq<string>>, k: string)
    requires DistinctKeys(categorized)
    ensures Get(Observed(descriptions, categorized), k) ==
            if HasNames(categorized, k) then Some(PresentRecord(descriptions, k, Get(categorized, k).value)) else None
  {
    if categorized != [] {
      var prefix := categorized[..|categorized| - 1];
      var last := categorized[|categorized| - 1];
      assert categorized == prefix + [last];
      DistinctKeysSnoc(prefix, last);
      GetSnoc(prefix, last, k);
      ObservedLookup(descriptions, prefix, k);
      if last.1 != [] {
        PutLookup(Observed(descriptions, prefix), last.0, PresentRecord(descriptions, last.0, last.1), k);
      }
    }
  }

  lemma {:induction false} BackfillLookup(caps: Dict<string, Capability>, table: Dict<string, string>, k: string)
    ensures Get(Backfill(caps, table), k) ==
            if k in Keys(caps) then Get(caps, k)
            else if k in Keys(table) then Some(AbsentRecord(Get(table, k).value))
            else None
  {
    if table != [] {
      var prefix := table[..|table| - 1];
      var last := table[|table| - 1];
      assert table == prefix + [last];
      GetSnoc(prefix, last, k);
      KeysSnoc(prefix, last);
      BackfillLookup(caps, prefix, k);
      var prev := Backfill(caps, prefix);
      if last.0 !in Keys(prev) {
        PutLookup(prev, last.0, AbsentRecord(last.1), k);
        BackfillLookup(caps, prefix, last.0);
      }
    }
  }

  /**
   * What `compute_capabilities` records for a category: the summary of its list when the
   * list is non-empty; otherwise the default record when the category is in the
   * description table, and nothing at all when it is not.
   */
  lemma CapabilitiesLookup(descriptions: Dict<string, string>, categorized: Dict<string, seq<string>>, k: string)
    requires DistinctKeys(categorized)
    ensures Get(Capabilities(descriptions, categorized), k) ==
            if HasNames(categorized, k) then Some(PresentRecord(descriptions, k, Get(categorized, k).value))
            else if k in Keys(descriptions) then Some(AbsentRecord(GetOr(descriptions, k, "")))
            else None
  {
    ObservedLookup(descriptions, categorized, k);
    BackfillLookup(Observed(descriptions, categorized), descriptions, k);
  }

  /** A present record counts its list and never shows more than five of its names. */
  lemma PresentRecordSpec(descriptions: Dict<string, string>, category: string, funcs: seq<string>)
    requires funcs != []
    ensures PresentRecord(descriptions, category, funcs).present
    ensures PresentRecord(descriptions, category, funcs).count == |funcs| > 0
    ensures 0 < |PresentRecord(descriptions, category, funcs).examples| <= MAX_EXAMPLES
    ensures forall x :: x in PresentRecord(descriptions, category, funcs).examples ==> x in funcs
  {
    ExamplesSpec(funcs);
    assert funcs[0] in funcs;
  }

  lemma {:induction false} BackfillCovers(caps: Dict<string, Capability>, table: Dict<string, string>)
    ensures forall k :: k in Keys(table) ==> k in Keys(Backfill(caps, table))
  {
    if table != [] {
      var prefix := table[..|table| - 1];
      var last := table[|table| - 1];
      assert table == prefix + [last];
      KeysSnoc(prefix, last);
      BackfillCovers(caps, prefix);
      var prev := Backfill(caps, prefix);
      if last.0 !in Keys(prev) {
        PutKeys(prev, last.0, AbsentRecord(last.1));
      }
    }
  }

  /** Every category of the description table has a record, whatever the input. */
  lemma CapabilitiesCoverTable(descriptions: Dict<string, string>, categorized: Dict<string, seq<string>>)
    ensures forall k :: k in Keys(descriptions) ==> k in Keys(Capabilities(descriptions, categorized))
  {
    BackfillCovers(Observed(descriptions, categorized), descriptions);
  }

  /** The categories with a non-empty list, in input order. */
  function NamedKeys(categorized: Dict<string, seq<string>>): seq<string> {
    if categorized == [] then []
    else
      var last := categorized[|categorized| - 1];
      NamedKeys(categorized[..|categorized| - 1]) + (if last.1 == [] then [] else [last.0])
  }

  lemma {:induction false} ObservedKeys(descriptions: Dict<string, string>, categorized: Dict<string, seq<string>>)
    requires DistinctKeys(categorized)
    ensures Keys(Observed(descriptions, categorized)) == NamedKeys(categorized)
    ensures forall k :: k in NamedKeys(categorized) ==> k in Keys(categorized)
  {
    if categorized != [] {
      var prefix := categorized[..|categorized| - 1];
      var last := categorized[|categorized| - 1];
      assert categorized == prefix + [last];
      DistinctKeysSnoc(prefix, last);
      KeysSnoc(prefix, last);
      ObservedKeys(descriptions, prefix);
      if last.1 != [] {
        PutKeys(Observed(descriptions, prefix), last.0, PresentRecord(descriptions, last.0, last.1));
      }
    }
  }

  lemma {:induction false} ObservedDistinct(descriptions: Dict<string, string>, categorized: Dict<string, seq<string>>)
    ensures DistinctKeys(Observed(descriptions, categorized))
  {
    if categorized != [] {
      var prefix := categorized[..|categorized| - 1];
      var last := categorized[|categorized| - 1];
      ObservedDistinct(descriptions, prefix);
      if last.1 != [] {
        PutKeepsDistinct(Observed(descriptions, prefix), last.0, PresentRecord(descriptions, last.0, last.1));
      }
    }
  }

  lemma {:induction false} BackfillKeys(caps: Dict<string, Capability>, table: Dict<string, string>)
    requires DistinctKeys(caps)
    ensures Keys(Backfill(caps, table)) == FirstOccurrences(Keys(caps) + Keys(table))
  {
    if table == [] {
      assert Keys(caps) + Keys(table) == Keys(caps);
      FirstOccurrencesOfDistinct(Keys(caps));
    } else {
      var prefix := table[..|table| - 1];
      var last := table[|table| - 1];
      assert table == prefix + [last];
      KeysSnoc(prefix, last);
      var all := Keys(caps) + Keys(table);
      var earlier := Keys(caps) + Keys(prefix);
      assert all == earlier + [last.0];
      assert all[..|all| - 1] == earlier && all[|all| - 1] == last.0;
      assert FirstOccurrences(all) ==
             if last.0 in FirstOccurrences(earlier) then FirstOccurrences(earlier)
             else FirstOccurrences(earlier) + [last.0];
      BackfillKeys(caps, prefix);
      var prev := Backfill(caps, prefix);
      assert Backfill(caps, table) == if last.0 in Keys(prev) then prev else Put(prev, last.0, AbsentRecord(last.1));
      PutKeys(prev, last.0, AbsentRecord(last.1));
    }
  }

  /**
   * The records are keyed by distinct categories: first the categories with names, in input
   * order, then the missing categories of the description table, in the table's order.
   */
  lemma CapabilitiesKeyOrder(descriptions: Dict<string, string>, categorized: Dict<string, seq<string>>)
    requires DistinctKeys(categorized)
    ensures DistinctKeys(Capabilities(descriptions, categorized))
    ensures Keys(Capabilities(descriptions, categorized)) == FirstOccurrences(NamedKeys(categorized) + Keys(descriptions))
  {
    ObservedKeys(descriptions, categorized);
    ObservedDistinct(descriptions, categorized);
    BackfillKeys(Observed(descriptions, categorized), descriptions);
    FirstOccurrencesMembers(NamedKeys(categorized) + Keys(descriptions));
  }

  // ----- _flatten_apis, detect_patterns, describe_patterns -----

  /** Every imported name, in its original spelling, over all categories. */
  function AllApis(categorized: Dict<string, seq<string>>): set<string> {
    set i, x | 0 <= i < |categorized| && x in categorized[i].1 :: x
  }

  method FlattenApis(categorized: Dict<string, seq<string>>) returns (apis: set<string>)
    ensures forall x :: x in apis <==> exists i :: 0 <= i < |categorized| && x in categorized[i].1
  {
    apis := {};
    for i := 0 to |categorized|
      invariant forall x :: x in apis <==> exists k :: 0 <= k < i && x in categorized[k].1
    {
      apis := apis + set x | x in categorized[i].1;
    }
  }

  /** The result of `detect_patterns`: the three rules, tried in a fixed order. */
  function Patterns(categorized: Dict<string, seq<string>>): seq<string> {
    var lowered := set name | name in AllApis(categorized) :: Lower(name);
    (if INJECTION_TRIAD <= lowered then [PROCESS_INJECTION_COMBO] else [])
    + (if HasNames(categorized, "network") && HasNames(categorized, "file_io") then [NETWORK_AND_FILE_IO] else [])
    + (if HasNames(categorized, "registry") then [REGISTRY_PERSISTENCE] else [])
  }

  method DetectPatterns(categorized: Dict<string, seq<string>>) returns (patterns: seq<string>)
    ensures patterns == Patterns(categorized)
  {
    patterns := [];
    var apis := FlattenApis(categorized);
    assert apis == AllApis(categorized);
    var allApis := set name | name in apis :: Lower(name);
    ghost var lowered := set name | name in AllApis(categorized) :: Lower(name);
    assert allApis == lowered;
    if INJECTION_TRIAD <= allApis {
      patterns := patterns + [PROCESS_INJECTION_COMBO];
    }
    assert patterns == if INJECTION_TRIAD <= lowered then [PROCESS_INJECTION_COMBO] else [];
    ghost var first := patterns;
    var network := Get(categorized, "network");
    var fileIo := Get(categorized, "file_io");
    if network.Some? && network.value != [] && fileIo.Some? && fileIo.value != [] {
      patterns := patterns + [NETWORK_AND_FILE_IO];
    }
    assert patterns == first
      + (if HasNames(categorized, "network") && HasNames(categorized, "file_io") then [NETWORK_AND_FILE_IO] else []);
    ghost var second := patterns;
    var registry := Get(categorized, "registry");
    if registry.Some? && registry.value != [] {
      patterns := patterns + [REGISTRY_PERSISTENCE];
    }
    assert patterns == second + (if HasNames(categorized, "registry") then [REGISTRY_PERSISTENCE] else []);
  }

  /** Some name in some category's list lower-cases to `lowered`. */
  predicate Imported(categorized: Dict<string, seq<string>>, lowered: string) {
    exists i, j :: 0 <= i < |categorized| && 0 <= j < |categorized[i].1| && Lower(categorized[i].1[j]) == lowered
  }

  lemma ImportedMeansLowered(categorized: Dict<string, seq<string>>, t: string)
    ensures Imported(categorized, t) <==> t in set name | name in AllApis(categorized) :: Lower(name)
  {
    var lowered := set name | name in AllApis(categorized) :: Lower(name);
    if Imported(categorized, t) {
      var i, j :| 0 <= i < |categorized| && 0 <= j < |categorized[i].1| && Lower(categorized[i].1[j]) == t;
      var name := categorized[i].1[j];
      assert name in categorized[i].1;
      assert name in AllApis(categorized);
      assert Lower(name) in lowered;
    }
    if t in lowered {
      var name :| name in AllApis(categorized) && Lower(name) == t;
      var i :| 0 <= i < |categorized| && name in categorized[i].1;
      var j :| 0 <= j < |categorized[i].1| && categorized[i].1[j] == name;
    }
  }

  /**
   * On the categorizer's output, a lower-cased name is imported exactly when some imported
   * function, from whatever DLL and in whatever category, lower-cases to it.
   */
  lemma CategorizedImported(imports: Dict<string, seq<string>>, t: string)
    ensures Imported(Categorize.Categorized(imports), t) <==>
            exists n :: n in Categorize.AllNames(imports) && Lower(n) == t
  {
    var names := Categorize.AllNames(imports);
    var g := Categorize.Categorized(imports);
    if Imported(g, t) {
      var i, j :| 0 <= i < |g| && 0 <= j < |g[i].1| && Lower(g[i].1[j]) == t;
      Categorize.GroupDistinct(Categorize.API_CATEGORIES, names);
      GetAtIndex(g, i);
      Categorize.GroupLookup(Categorize.API_CATEGORIES, names, g[i].0);
      Categorize.SelectMembers(Categorize.API_CATEGORIES, names, g[i].0, g[i].1[j]);
      assert g[i].1[j] in names;
    }
    if exists n :: n in names && Lower(n) == t {
      var n :| n in names && Lower(n) == t;
      Categorize.CategorizedPlacement(imports, n, Categorize.CategoryOf(n));
      var list := Get(g, Categorize.CategoryOf(n)).value;
      assert (Categorize.CategoryOf(n), list) in g;
      var i :| 0 <= i < |g| && g[i] == (Categorize.CategoryOf(n), list);
      var j :| 0 <= j < |list| && list[j] == n;
      assert Lower(g[i].1[j]) == t;
    }
  }

  /**
   * Each rule fires exactly when its condition holds: the combo when all three APIs occur,
   * in any case and any category; the other two when the named categories have names.
   */
  lemma PatternRules(categorized: Dict<string, seq<string>>)
    ensures PROCESS_INJECTION_COMBO in Patterns(categorized) <==>
              Imported(categorized, "openprocess") && Imported(categorized, "virtualallocex")
              && Imported(categorized, "writeprocessmemory")
    ensures NETWORK_AND_FILE_IO in Patterns(categorized) <==>
              HasNames(categorized, "network") && HasNames(categorized, "file_io")
    ensures REGISTRY_PERSISTENCE in Patterns(categorized) <==> HasNames(categorized, "registry")
  {
    ImportedMeansLowered(categorized, "openprocess");
    ImportedMeansLowered(categorized, "virtualallocex");
    ImportedMeansLowered(categorized, "writeprocessmemory");
  }

  /** The position of a pattern id in the order the rules are tried. */
  function RuleIndex(id: string): nat {
    if id == PROCESS_INJECTION_COMBO then 0 else if id == NETWORK_AND_FILE_IO then 1 else 2
  }

  /** At most three ids, no repeats, in rule order, each with a description. */
  lemma PatternsShape(categorized: Dict<string, seq<string>>)
    ensures |Patterns(categorized)| <= 3
    ensures forall i, j :: 0 <= i < j < |Patterns(categorized)| ==>
              RuleIndex(Patterns(categorized)[i]) < RuleIndex(Patterns(categorized)[j])
    ensures forall i, j :: 0 <= i < j < |Patterns(categorized)| ==>
              Patterns(categorized)[i] != Patterns(categorized)[j]
    ensures forall i :: 0 <= i < |Patterns(categorized)| ==> Patterns(categorized)[i] in PATTERN_DESCRIPTIONS
  {
  }

  method DescribePatterns(patternIds: seq<string>) returns (described: seq<(string, string)>)
    ensures |described| == |patternIds|
    ensures forall i :: 0 <= i < |patternIds| ==>
              described[i].0 == patternIds[i]
              && described[i].1 == if patternIds[i] in PATTERN_DESCRIPTIONS then PATTERN_DESCRIPTIONS[patternIds[i]] else ""
  {
    described := [];
    for i := 0 to |patternIds|
      invariant |described| == i
      invariant forall k :: 0 <= k < i ==>
                  described[k].0 == patternIds[k]
                  && described[k].1 == if patternIds[k] in PATTERN_DESCRIPTIONS then PATTERN_DESCRIPTIONS[patternIds[k]] else ""
    {
      var pid := patternIds[i];
      var text := if pid in PATTERN_DESCRIPTIONS then PATTERN_DESCRIPTIONS[pid] else "";
      described := described + [(pid, text)];
    }
  }
}
