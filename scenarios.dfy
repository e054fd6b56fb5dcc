/** Concrete runs of the pipeline on the inputs its test and its documentation use. */
module Scenarios {
  import opened Wrappers
  import opened Dicts
  import opened Text
  import opened SortedSets
  import opened Categorize
  import opened Analyze
  import opened PeParser

  const KERNEL32_FUNCS: seq<string> := ["CreateFileW", "ReadFile"]
  const WS2_32_FUNCS: seq<string> := ["connect", "send"]

  /** The test's dict display lists "KERNEL32.DLL" three times; Python keeps one key. */
  const FAKE_IMPORTS_DISPLAY: seq<(string, seq<string>)> := [
    ("KERNEL32.DLL", KERNEL32_FUNCS),
    ("WS2_32.DLL", WS2_32_FUNCS),
    ("KERNEL32.DLL", KERNEL32_FUNCS),
    ("KERNEL32.DLL", KERNEL32_FUNCS)
  ]

  const FAKE_IMPORTS: Dict<string, seq<string>> := [("KERNEL32.DLL", KERNEL32_FUNCS), ("WS2_32.DLL", WS2_32_FUNCS)]

  /** The display denotes two DLLs with four names in all. */
  lemma FakeImportsDisplay()
    ensures FromPairs(FAKE_IMPORTS_DISPLAY) == FAKE_IMPORTS
    ensures TotalLength(FAKE_IMPORTS) == 4
  {
    var k := ("KERNEL32.DLL", KERNEL32_FUNCS);
    var w := ("WS2_32.DLL", WS2_32_FUNCS);
    assert "KERNEL32.DLL" != "WS2_32.DLL";
    assert TotalLength(FAKE_IMPORTS) == 2 + TotalLength([w]);
    assert TotalLength([w]) == 2 + TotalLength<string, string>([]);
    FromPairsSnoc([], k);
    assert [] + [k] == [k];
    assert FromPairs([k]) == [k];
    FromPairsSnoc([k], w);
    assert [k] + [w] == [k, w];
    assert FromPairs([k, w]) == FAKE_IMPORTS;
    FromPairsSnoc([k, w], k);
    assert [k, w] + [k] == [k, w, k];
    assert FromPairs([k, w, k]) == FAKE_IMPORTS;
    FromPairsSnoc([k, w, k], k);
    assert [k, w, k] + [k] == FAKE_IMPORTS_DISPLAY;
  }

  /** The KERNEL32 names of the test input are file I/O APIs. */
  lemma Kernel32Categories()
    ensures CategoryOf("CreateFileW") == "file_io"
    ensures CategoryOf("ReadFile") == "file_io"
  {
    CreateFileSpellings();
    NormalizedPlain("ReadFile");
    assert Lower("ReadFile") == "readfile";
    assert API_CATEGORIES["readfile"] == "file_io";
  }

  /** The WS2_32 names of the test input are network APIs. */
  lemma Ws2_32Categories()
    ensures CategoryOf("connect") == "network"
    ensures CategoryOf("send") == "network"
  {
    NormalizedPlain("connect");
    NormalizedPlain("send");
    assert Lower("connect") == "connect";
    assert Lower("send") == "send";
    assert API_CATEGORIES["connect"] == "network";
    assert API_CATEGORIES["send"] == "network";
  }

  const FAKE_CATEGORIZED: Dict<string, seq<string>> := [("file_io", KERNEL32_FUNCS), ("network", WS2_32_FUNCS)]

  lemma FakeNames()
    ensures AllNames(FAKE_IMPORTS) == KERNEL32_FUNCS + WS2_32_FUNCS
  {
    var k := ("KERNEL32.DLL", KERNEL32_FUNCS);
    var w := ("WS2_32.DLL", WS2_32_FUNCS);
    AllNamesSnoc([], k);
    assert [] + [k] == [k];
    AllNamesSnoc([k], w);
    assert [k] + [w] == FAKE_IMPORTS;
  }

  lemma FakeFileGroup()
    ensures Group(API_CATEGORIES, KERNEL32_FUNCS) == [("file_io", KERNEL32_FUNCS)]
  {
    Kernel32Categories();
    GroupSnoc(API_CATEGORIES, [], "CreateFileW");
    assert [] + ["CreateFileW"] == ["CreateFileW"];
    assert Group(API_CATEGORIES, ["CreateFileW"]) == [("file_io", ["CreateFileW"])];
    GroupSnoc(API_CATEGORIES, ["CreateFileW"], "ReadFile");
    assert ["CreateFileW"] + ["ReadFile"] == KERNEL32_FUNCS;
  }

  lemma FakeNetworkGroup()
    ensures Group(API_CATEGORIES, KERNEL32_FUNCS + ["connect"]) == [("file_io", KERNEL32_FUNCS), ("network", ["connect"])]
  {
    var d := [("file_io", KERNEL32_FUNCS)];
    FakeFileGroup();
    Ws2_32Categories();
    assert "file_io" != "network";
    assert Get(d, "network") == None;
    assert Put(d, "network", ["connect"]) == [d[0]] + Put(d[1..], "network", ["connect"]);
    assert d[1..] == [];
    assert GetOr(d, "network", []) == [];
    assert [] + ["connect"] == ["connect"];
    assert AppendTo(d, "network", "connect") == [("file_io", KERNEL32_FUNCS), ("network", ["connect"])];
    assert CategoryIn(API_CATEGORIES, "connect") == "network";
    GroupSnoc(API_CATEGORIES, KERNEL32_FUNCS, "connect");
  }

  /** Appending `send` to the network list, which already holds `connect`. */
  lemma FakeSendStep()
    ensures AppendTo([("file_io", KERNEL32_FUNCS), ("network", ["connect"])], "network", "send") == FAKE_CATEGORIZED
  {
    var d := [("file_io", KERNEL32_FUNCS), ("network", ["connect"])];
    assert "file_io" != "network";
    assert Get(d, "network") == Some(["connect"]);
    assert Put(d, "network", WS2_32_FUNCS) == [d[0]] + Put(d[1..], "network", WS2_32_FUNCS);
    assert d[1..] == [("network", ["connect"])];
    assert Put(d, "network", WS2_32_FUNCS) == FAKE_CATEGORIZED;
    assert GetOr(d, "network", []) + ["send"] == WS2_32_FUNCS;
  }

  /** The categorizer puts the two KERNEL32 names under file I/O and the two WS2_32 names under network. */
  lemma FakeImportsCategorized()
    ensures Categorized(FAKE_IMPORTS) == FAKE_CATEGORIZED
  {
    var three := KERNEL32_FUNCS + ["connect"];
    FakeNames();
    FakeNetworkGroup();
    FakeSendStep();
    Ws2_32Categories();
    assert CategoryIn(API_CATEGORIES, "send") == "network";
    GroupSnoc(API_CATEGORIES, three, "send");
    assert three + ["send"] == KERNEL32_FUNCS + WS2_32_FUNCS;
  }

  lemma FakeExamples()
    ensures Examples(KERNEL32_FUNCS) == KERNEL32_FUNCS
    ensures Examples(WS2_32_FUNCS) == WS2_32_FUNCS
  {
    assert Below("CreateFileW", "ReadFile");
    assert KERNEL32_FUNCS[..1] == ["CreateFileW"];
    assert SortedSet(["CreateFileW"]) == ["CreateFileW"];
    assert Below("connect", "send");
    assert WS2_32_FUNCS[..1] == ["connect"];
    assert SortedSet(["connect"]) == ["connect"];
  }

  /** The test's assertions: file I/O and network are present with two names each. */
  lemma FakeImportsCapabilities()
    ensures Get(Capabilities(CATEGORY_DESCRIPTIONS, FAKE_CATEGORIZED), "file_io") == Some(Capability(
              true, 2, ["CreateFileW", "ReadFile"], "Can create, read, write, or delete files on disk."))
    ensures Get(Capabilities(CATEGORY_DESCRIPTIONS, FAKE_CATEGORIZED), "network") == Some(Capability(
              true, 2, ["connect", "send"], "Can communicate over the network (e.g., sockets or HTTP)."))
    ensures Get(Capabilities(CATEGORY_DESCRIPTIONS, FAKE_CATEGORIZED), "registry") == Some(Capability(
              false, 0, [], "Can read or modify Windows registry keys."))
  {
    var c := FAKE_CATEGORIZED;
    assert "file_io" != "network";
    assert Keys(c) == ["file_io", "network"];
    assert DistinctKeys(c);
    assert Get(c, "file_io") == Some(KERNEL32_FUNCS);
    assert Get(c, "network") == Some(WS2_32_FUNCS);
    assert Get(c, "registry") == None;
    FakeExamples();
    CapabilitiesLookup(CATEGORY_DESCRIPTIONS, c, "file_io");
    CapabilitiesLookup(CATEGORY_DESCRIPTIONS, c, "network");
    CapabilitiesLookup(CATEGORY_DESCRIPTIONS, c, "registry");
    assert Keys(CATEGORY_DESCRIPTIONS)[2] == "registry";
  }

  /** The test's pattern assertion: only the network+file rule fires. */
  lemma FakeImportsPatterns()
    ensures Patterns(FAKE_CATEGORIZED) == [NETWORK_AND_FILE_IO]
  {
    var c := FAKE_CATEGORIZED;
    assert "file_io" != "network";
    assert Get(c, "file_io") == Some(KERNEL32_FUNCS);
    assert Get(c, "network") == Some(WS2_32_FUNCS);
    assert Get(c, "registry") == None;
    PatternRules(c);
    assert !Imported(c, "virtualallocex") by {
      forall i, j | 0 <= i < |c| && 0 <= j < |c[i].1| ensures Lower(c[i].1[j]) != "virtualallocex" {
        assert |c[i].1[j]| != |"virtualallocex"|;
      }
    }
  }

  const KERNEL32_LOWER := ImportDescriptor(Some("kernel32.dll"), [ImportData(Some("CreateFileW"), None)])
  const WS2_32_BY_ORDINAL := ImportDescriptor(Some("ws2_32.dll"), [ImportData(None, Some(23))])
  const KERNEL32_AGAIN :=
    ImportDescriptor(Some("KERNEL32.dll"), [ImportData(Some("ReadFile"), None), ImportData(Some(""), None)])

  lemma DescriptorKeys()
    ensures DllKey(KERNEL32_LOWER) == "KERNEL32.DLL"
    ensures DllKey(KERNEL32_AGAIN) == "KERNEL32.DLL"
    ensures DllKey(WS2_32_BY_ORDINAL) == "WS2_32.DLL"
  {
    assert Upper("kernel32.dll") == "KERNEL32.DLL";
    assert Upper("KERNEL32.dll") == "KERNEL32.DLL";
    assert Upper("ws2_32.dll") == "WS2_32.DLL";
  }

  lemma DescriptorNames()
    ensures FuncNames(KERNEL32_LOWER.imports) == ["CreateFileW"]
    ensures FuncNames(WS2_32_BY_ORDINAL.imports) == ["ORDINAL_23"]
    ensures FuncNames(KERNEL32_AGAIN.imports) == ["ReadFile", "UNKNOWN"]
  {
    assert Decimal(23) == "23";
    assert FuncName(WS2_32_BY_ORDINAL.imports[0]) == "ORDINAL_23";
    FuncNamesSpec(KERNEL32_LOWER.imports);
    FuncNamesSpec(WS2_32_BY_ORDINAL.imports);
    FuncNamesSpec(KERNEL32_AGAIN.imports);
  }

  /**
   * A descriptor list naming kernel32.dll twice: the key is upper-cased, keeps the place of
   * its first descriptor and holds the second descriptor's list; a nameless symbol with an
   * ordinal is recorded as ORDINAL_<n>, one with an empty name and no ordinal as UNKNOWN.
   */
  lemma RepeatedDllDescriptor()
    ensures ImportTable([KERNEL32_LOWER, WS2_32_BY_ORDINAL, KERNEL32_AGAIN]) ==
            [("KERNEL32.DLL", ["ReadFile", "UNKNOWN"]), ("WS2_32.DLL", ["ORDINAL_23"])]
  {
    var a, b, c := KERNEL32_LOWER, WS2_32_BY_ORDINAL, KERNEL32_AGAIN;
    DescriptorKeys();
    DescriptorNames();
    assert "KERNEL32.DLL" != "WS2_32.DLL";
    ImportTableSnoc([], a);
    assert [] + [a] == [a];
    assert ImportTable([a]) == [("KERNEL32.DLL", ["CreateFileW"])];
    ImportTableSnoc([a], b);
    assert [a] + [b] == [a, b];
    assert ImportTable([a, b]) == [("KERNEL32.DLL", ["CreateFileW"]), ("WS2_32.DLL", ["ORDINAL_23"])];
    ImportTableSnoc([a, b], c);
    assert [a, b] + [c] == [a, b, c];
  }

  /** Underscored spellings of the triad are categorized as injection APIs, yet the combo does not fire. */
  lemma UnderscoredTriad()
    ensures CategoryOf("_OpenProcess") == "process_injection"
    ensures PROCESS_INJECTION_COMBO !in Patterns([("process_injection", ["_OpenProcess", "_VirtualAllocEx", "_WriteProcessMemory"])])
  {
    var c := [("process_injection", ["_OpenProcess", "_VirtualAllocEx", "_WriteProcessMemory"])];
    assert Strip("_OpenProcess") == "_OpenProcess";
    assert DropUnderscores("_OpenProcess") == "OpenProcess";
    assert Lower("OpenProcess") == "openprocess";
    assert API_CATEGORIES["openprocess"] == "process_injection";
    PatternRules(c);
    assert !Imported(c, "openprocess") by {
      forall i, j | 0 <= i < |c| && 0 <= j < |c[i].1| ensures Lower(c[i].1[j]) != "openprocess" {
        assert |c[i].1[j]| != |"openprocess"|;
      }
    }
  }
}
