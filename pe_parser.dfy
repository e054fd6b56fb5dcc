/**
 * Flattening of the import directory into DLL name -> imported function names.
 * The PE file itself is read by a third-party library; its outcome is an input here:
 * either a format error, or the list of import descriptors it found (absent when
 * the file has no import directory).
 */
module PeParser {
  import opened Wrappers
  import opened Dicts
  import opened Text

  /** One imported symbol: its name, its ordinal, or neither. */
  datatype ImportData = ImportData(name: Option<string>, ordinal: Option<nat>)

  /** One import descriptor: the DLL it names and the symbols imported from it. */
  datatype ImportDescriptor = ImportDescriptor(dll: Option<string>, imports: seq<ImportData>)

  /** What loading the file as a PE yields. */
  datatype PeLoad = FormatError | Loaded(importDirectory: Option<seq<ImportDescriptor>>)

  /** The two failures the parser raises. */
  datatype ParseError = FileNotFound(message: string) | PEParseError(message: string)

  const UNKNOWN := "UNKNOWN"
  const ORDINAL_PREFIX := "ORDINAL_"

  /** The key of a descriptor: its DLL name upper-cased, or "UNKNOWN" when missing or empty. */
  function DllKey(entry: ImportDescriptor): string {
    match entry.dll
    case Some(name) => if name != "" then Upper(name) else UNKNOWN
    case None => UNKNOWN
  }

  /** The name recorded for one symbol. */
  function FuncName(imp: ImportData): string {
    match imp.name
    case Some(name) =>
      if name != "" then name
      else if imp.ordinal.Some? then ORDINAL_PREFIX + Decimal(imp.ordinal.value) else UNKNOWN
    case None =>
      if imp.ordinal.Some? then ORDINAL_PREFIX + Decimal(imp.ordinal.value) else UNKNOWN
  }

  /** The list the inner loop builds for one descriptor. */
  function FuncNames(imports: seq<ImportData>): seq<string> {
    if imports == [] then []
    else FuncNames(imports[..|imports| - 1]) + [FuncName(imports[|imports| - 1])]
  }

  /** The mapping the outer loop builds from the descriptors seen so far. */
  function ImportTable(directory: seq<ImportDescriptor>): Dict<string, seq<string>> {
    if directory == [] then []
    else
      var entry := directory[|directory| - 1];
      Put(ImportTable(directory[..|directory| - 1]), DllKey(entry), FuncNames(entry.imports))
  }

  /** The result of `get_imports`. */
  function Imports(path: string, isFile: bool, load: PeLoad): Result<Dict<string, seq<string>>, ParseError> {
    if !isFile then Failure(FileNotFound("File not found: " + path))
    else if load.FormatError? then Failure(PEParseError("Not a valid PE file: " + path))
    else if load.importDirectory.None? then Success([])
    else Success(ImportTable(load.importDirectory.value))
  }

  method GetImports(path: string, isFile: bool, load: PeLoad)
    returns (result: Result<Dict<string, seq<string>>, ParseError>)
    ensures result == Imports(path, isFile, load)
    ensures !isFile ==> result.Failure? && result.error.FileNotFound?
    ensures isFile && load.FormatError? ==> result.Failure? && result.error.PEParseError?
    ensures isFile && load.Loaded? && load.importDirectory.None? ==> result == Success([])
  {
    if !isFile {
      return Failure(FileNotFound("File not found: " + path));
    }
    if load.FormatError? {
      return Failure(PEParseError("Not a valid PE file: " + path));
    }
    var imports: Dict<string, seq<string>> := [];
    if load.importDirectory.None? {
      return Success(imports);
    }
    var directory := load.importDirectory.value;
    for e := 0 to |directory|
      invariant imports == ImportTable(directory[..e])
    {
      var entry := directory[e];
      var dllName := if entry.dll.Some? && entry.dll.value != "" then Upper(entry.dll.value) else UNKNOWN;
      var funcs: seq<string> := [];
      for k := 0 to |entry.imports|
        invariant funcs == FuncNames(entry.imports[..k])
      {
        var imp := entry.imports[k];
        var funcName;
        if imp.name.Some? && imp.name.value != "" {
          funcName := imp.name.value;
        } else {
          funcName := if imp.ordinal.Some? then ORDINAL_PREFIX + Decimal(imp.ordinal.value) else UNKNOWN;
        }
        assert entry.imports[..k + 1][..k] == entry.imports[..k];
        funcs := funcs + [funcName];
      }
      assert entry.imports[..|entry.imports|] == entry.imports;
      assert directory[..e + 1][..e] == directory[..e];
      imports := Put(imports, dllName, funcs);
    }
    assert directory[..|directory|] == directory;
    return Success(imports);
  }

  // ----- What the mapping means -----

  /** Keys are upper case: no lower-case ASCII letter, and never empty; a missing or empty name gives "UNKNOWN". */
  lemma DllKeyIsUpper(entry: ImportDescriptor)
    ensures DllKey(entry) != ""
    ensures entry.dll.None? || entry.dll == Some("") ==> DllKey(entry) == UNKNOWN
    ensures forall i :: 0 <= i < |DllKey(entry)| ==> !IsLower(DllKey(entry)[i])
  {
    if entry.dll.Some? && entry.dll.value != "" {
      UpperHasNoLower(entry.dll.value);
    }
  }

  /**
   * A symbol with a non-empty name keeps it; otherwise its name is "ORDINAL_" followed by
   * the decimal digits that read back as its ordinal, or "UNKNOWN" when it has none.
   */
  lemma FuncNameCases(imp: ImportData)
    ensures imp.name.Some? && imp.name.value != "" ==> FuncName(imp) == imp.name.value
    ensures !(imp.name.Some? && imp.name.value != "") && imp.ordinal.None? ==> FuncName(imp) == UNKNOWN
    ensures !(imp.name.Some? && imp.name.value != "") && imp.ordinal.Some? ==>
              var s := FuncName(imp);
              |s| > |ORDINAL_PREFIX| && s[..|ORDINAL_PREFIX|] == ORDINAL_PREFIX
              && (forall i :: |ORDINAL_PREFIX| <= i < |s| ==> IsDigit(s[i]))
              && DecimalValue(s[|ORDINAL_PREFIX|..]) == imp.ordinal.value
  {
    if !(imp.name.Some? && imp.name.value != "") && imp.ordinal.Some? {
      var digits := Decimal(imp.ordinal.value);
      var s := FuncName(imp);
      assert s == ORDINAL_PREFIX + digits;
      assert s[|ORDINAL_PREFIX|..] == digits;
      DecimalRoundTrip(imp.ordinal.value);
    }
  }

  lemma ImportTableSnoc(directory: seq<ImportDescriptor>, entry: ImportDescriptor)
    ensures ImportTable(directory + [entry]) == Put(ImportTable(directory), DllKey(entry), FuncNames(entry.imports))
  {
    assert (directory + [entry])[..|directory|] == directory;
  }

  /** The DLL keys of the descriptors, in order. */
  function DllKeys(directory: seq<ImportDescriptor>): seq<string> {
    if directory == [] then [] else DllKeys(directory[..|directory| - 1]) + [DllKey(directory[|directory| - 1])]
  }

  /**
   * Keys are the descriptors' DLL keys, each once, at the position of its first
   * descriptor; a repeated DLL does not move its key.
   */
  lemma {:induction false} ImportTableKeys(directory: seq<ImportDescriptor>)
    ensures Keys(ImportTable(directory)) == FirstOccurrences(DllKeys(directory))
    ensures DistinctKeys(ImportTable(directory))
    ensures forall k :: k in Keys(ImportTable(directory)) <==> exists i :: 0 <= i < |directory| && DllKey(directory[i]) == k
  {
    if directory != [] {
      var prefix := directory[..|directory| - 1];
      var entry := directory[|directory| - 1];
      var ks := DllKeys(directory);
      assert ks[..|ks| - 1] == DllKeys(prefix) && ks[|ks| - 1] == DllKey(entry);
      ImportTableKeys(prefix);
      PutKeys(ImportTable(prefix), DllKey(entry), FuncNames(entry.imports));
    }
    FirstOccurrencesMembers(DllKeys(directory));
    DllKeysMembers(directory);
  }

  lemma {:induction false} DllKeysMembers(directory: seq<ImportDescriptor>)
    ensures forall k :: k in DllKeys(directory) <==> exists i :: 0 <= i < |directory| && DllKey(directory[i]) == k
  {
    if directory != [] {
      var prefix := directory[..|directory| - 1];
      DllKeysMembers(prefix);
      forall k | k in DllKeys(directory) ensures exists i :: 0 <= i < |directory| && DllKey(directory[i]) == k {
        if k in DllKeys(prefix) {
          var i :| 0 <= i < |prefix| && DllKey(prefix[i]) == k;
          assert DllKey(directory[i]) == k;
        } else {
          assert DllKey(directory[|directory| - 1]) == k;
        }
      }
      forall k | exists i :: 0 <= i < |directory| && DllKey(directory[i]) == k ensures k in DllKeys(directory) {
        var i :| 0 <= i < |directory| && DllKey(directory[i]) == k;
        if i < |prefix| {
          assert DllKey(prefix[i]) == k;
        }
      }
    }
  }

  /**
   * The list stored under a DLL key is the function list of the LAST descriptor with that
   * key: an earlier descriptor's list is replaced, not merged.
   */
  lemma {:induction false} ImportTableLastWins(directory: seq<ImportDescriptor>, i: nat)
    requires i < |directory|
    requires forall j :: i < j < |directory| ==> DllKey(directory[j]) != DllKey(directory[i])
    ensures Get(ImportTable(directory), DllKey(directory[i])) == Some(FuncNames(directory[i].imports))
  {
    var prefix := directory[..|directory| - 1];
    var entry := directory[|directory| - 1];
    PutLookup(ImportTable(prefix), DllKey(entry), FuncNames(entry.imports), DllKey(directory[i]));
    if i < |prefix| {
      ImportTableLastWins(prefix, i);
    }
  }

  /** Each DLL's list has one name per imported symbol, in the symbols' order. */
  lemma {:induction false} FuncNamesSpec(imports: seq<ImportData>)
    ensures |FuncNames(imports)| == |imports|
    ensures forall i :: 0 <= i < |imports| ==> FuncNames(imports)[i] == FuncName(imports[i])
  {
    if imports != [] {
      var prefix := imports[..|imports| - 1];
      FuncNamesSpec(prefix);
      assert forall i :: 0 <= i < |prefix| ==> imports[i] == prefix[i];
    }
  }
}
