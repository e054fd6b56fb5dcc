/**
 * The API-name categorizer: each imported function name is normalised, looked up in a
 * fixed table, and its original spelling is grouped under the table's category, or
 * under "unknown" when the table has no entry for it.
 */
module Categorize {
  import opened Wrappers
  import opened Dicts
  import opened Text

  const UNKNOWN := "unknown"

  /** Normalised API name -> category tag. The table is only ever read with `.get`, so its
      order is immaterial and it is a Dafny map. */
  const API_CATEGORIES: map<string, string> := map[
    // file I/O
    "createfilew" := "file_io",
    "createfilea" := "file_io",
    "readfile" := "file_io",
    "writefile" := "file_io",
    "deletefilew" := "file_io",
    "deletefilea" := "file_io",
    "copyfilew" := "file_io",
    "copyfilea" := "file_io",
    // networking
    "socket" := "network",
    "connect" := "network",
    "send" := "network",
    "recv" := "network",
    "wsastartup" := "network",
    "internetopena" := "network",
    "internetopenw" := "network",
    "internetopenurla" := "network",
    "internetopenurlw" := "network",
    "winhttpsendrequest" := "network",
    // registry
    "regopenkeyexa" := "registry",
    "regopenkeyexw" := "registry",
    "regcreatekeyexa" := "registry",
    "regcreatekeyexw" := "registry",
    "regsetvalueexa" := "registry",
    "regsetvalueexw" := "registry",
    "regdeletevaluea" := "registry",
    "regdeletevaluew" := "registry",
    // process injection
    "openprocess" := "process_injection",
    "virtualallocex" := "process_injection",
    "writeprocessmemory" := "process_injection",
    "createremotethread" := "process_injection",
    // process / command execution
    "createprocessa" := "process_management",
    "createprocessw" := "process_management",
    "winexec" := "process_management",
    "shell32.shell_executea" := "process_management",
    // crypto
    "cryptencrypt" := "crypto",
    "cryptdecrypt" := "crypto",
    "cryptacquirecontexta" := "crypto",
    "cryptacquirecontextw" := "crypto"
  ]

  /** Every category tag a name can be given. */
  const CATEGORY_TAGS: set<string> :=
    {"file_io", "network", "registry", "process_injection", "process_management", "crypto", UNKNOWN}

  function DropUnderscores(s: string): string {
    if |s| > 0 && s[0] == '_' then DropUnderscores(s[1..]) else s
  }

  /** The lookup key of an API name: stripped, leading underscores removed, lowercased. */
  function Normalized(name: string): string {
    Lower(DropUnderscores(Strip(name)))
  }

  method NormalizeApiName(name: string) returns (r: string)
    ensures r == Normalized(name)
  {
    var s := Strip(name);
    while |s| > 0 && s[0] == '_'
      invariant DropUnderscores(s) == DropUnderscores(Strip(name))
    {
      s := s[1..];
    }
    r := Lower(s);
  }

  lemma {:induction false} DropUnderscoresHead(s: string)
    ensures |DropUnderscores(s)| == 0 || DropUnderscores(s)[0] != '_'
  {
    if |s| > 0 && s[0] == '_' {
      DropUnderscoresHead(s[1..]);
    }
  }

  /** A normalised name never starts with an underscore. */
  lemma NormalizedHasNoLeadingUnderscore(name: string)
    ensures |Normalized(name)| == 0 || Normalized(name)[0] != '_'
  {
    DropUnderscoresHead(Strip(name));
  }

  /** A normalised name holds no upper-case ASCII letter. */
  lemma NormalizedIsLowercase(name: string)
    ensures forall i :: 0 <= i < |Normalized(name)| ==> !IsUpper(Normalized(name)[i])
  {
    LowerHasNoUpper(DropUnderscores(Strip(name)));
  }

  /** A name with no surrounding whitespace and no leading underscore is looked up by its lower-case form. */
  lemma NormalizedPlain(name: string)
    requires name != [] ==> !IsSpace(name[0]) && !IsSpace(name[|name| - 1]) && name[0] != '_'
    ensures Normalized(name) == Lower(name)
  {
    assert Strip(name) == name;
  }

  /** The category `table.get(key, "unknown")` gives one imported name. */
  function CategoryIn(table: map<string, string>, func: string): string {
    var key := Normalized(func);
    if key in table then table[key] else UNKNOWN
  }

  /** The category of one imported name under `API_CATEGORIES`. */
  function CategoryOf(func: string): string {
    CategoryIn(API_CATEGORIES, func)
  }

  /** Every value of `API_CATEGORIES` is one of the six known tags; none is "unknown". */
  lemma TableValues()
    ensures API_CATEGORIES.Values <= CATEGORY_TAGS - {UNKNOWN}
  {
  }

  /** Every category a name can be given is a value of the table or "unknown". */
  lemma CategoryOfRange(func: string)
    ensures CategoryOf(func) in CATEGORY_TAGS
  {
    TableValues();
    var key := Normalized(func);
    if key in API_CATEGORIES {
      assert API_CATEGORIES[key] in API_CATEGORIES.Values;
    }
  }

  /**
   * A name goes to "unknown" exactly when the table lacks its key, since "unknown" is no
   * value of the table; otherwise it goes to the table's category for that key.
   */
  lemma UnknownMeansUntabled(func: string)
    ensures CategoryOf(func) == UNKNOWN <==> Normalized(func) !in API_CATEGORIES
    ensures Normalized(func) in API_CATEGORIES ==> CategoryOf(func) == API_CATEGORIES[Normalized(func)]
  {
    var key := Normalized(func);
    if key in API_CATEGORIES {
      assert API_CATEGORIES[key] in API_CATEGORIES.Values;
      assert UNKNOWN !in API_CATEGORIES.Values;
    }
  }

  /** The function names of all DLLs, DLL by DLL, each DLL's names in order. */
  function AllNames(imports: Dict<string, seq<string>>): seq<string> {
    if imports == [] then []
    else AllNames(imports[..|imports| - 1]) + imports[|imports| - 1].1
  }

  /** The grouping the loop builds from a flat list of names. */
  function Group(table: map<string, string>, names: seq<string>): Dict<string, seq<string>> {
    if names == [] then []
    else
      var x := names[|names| - 1];
      AppendTo(Group(table, names[..|names| - 1]), CategoryIn(table, x), x)
  }

  /** The result of `categorize_imports`. */
  function Categorized(imports: Dict<string, seq<string>>): Dict<string, seq<string>> {
    Group(API_CATEGORIES, AllNames(imports))
  }

  method CategorizeImports(imports: Dict<string, seq<string>>) returns (categorized: Dict<string, seq<string>>)
    ensures categorized == Categorized(imports)
  {
    categorized := [];
    for i := 0 to |imports|
      invariant categorized == Group(API_CATEGORIES, AllNames(imports[..i]))
    {
      var funcs := imports[i].1;
      ghost var done := AllNames(imports[..i]);
      assert done + funcs[..0] == done;
      for j := 0 to |funcs|
        invariant categorized == Group(API_CATEGORIES, done + funcs[..j])
      {
        var func := funcs[j];
        var key := NormalizeApiName(func);
        var category := if key in API_CATEGORIES then API_CATEGORIES[key] else UNKNOWN;
        GroupStep(API_CATEGORIES, done, funcs, j);
        categorized := AppendTo(categorized, category, func);
      }
      AllNamesStep(imports, i);
    }
    assert imports[..|imports|] == imports;
  }

  lemma AllNamesSnoc(imports: Dict<string, seq<string>>, entry: (string, seq<string>))
    ensures AllNames(imports + [entry]) == AllNames(imports) + entry.1
  {
    assert (imports + [entry])[..|imports|] == imports;
  }

  lemma AllNamesStep(imports: Dict<string, seq<string>>, i: nat)
    requires i < |imports|
    ensures AllNames(imports[..i + 1]) == AllNames(imports[..i]) + imports[i].1[..|imports[i].1|]
  {
    assert imports[..i + 1][..i] == imports[..i];
    assert imports[i].1[..|imports[i].1|] == imports[i].1;
  }

  /** One more name: the grouping of `names + funcs[..j+1]` appends `funcs[j]` to its category. */
  lemma GroupSnoc(table: map<string, string>, names: seq<string>, func: string)
    ensures Group(table, names + [func]) == AppendTo(Group(table, names), CategoryIn(table, func), func)
  {
    assert (names + [func])[..|names|] == names;
  }

  lemma GroupStep(table: map<string, string>, names: seq<string>, funcs: seq<string>, j: nat)
    requires j < |funcs|
    ensures Group(table, names + funcs[..j + 1]) ==
            AppendTo(Group(table, names + funcs[..j]), CategoryIn(table, funcs[j]), funcs[j])
  {
    var s := names + funcs[..j + 1];
    assert s[..|s| - 1] == names + funcs[..j];
  }

  // ----- What the grouping means, for any lookup table -----

  /** The names of `names` whose category is `c`, in input order. */
  function Select(table: map<string, string>, names: seq<string>, c: string): seq<string> {
    if names == [] then []
    else
      var x := names[|names| - 1];
      Select(table, names[..|names| - 1], c) + (if CategoryIn(table, x) == c then [x] else [])
  }

  lemma {:induction false} SelectNonEmpty(table: map<string, string>, names: seq<string>, c: string)
    ensures Select(table, names, c) != [] <==>
            exists i :: 0 <= i < |names| && CategoryIn(table, names[i]) == c
  {
    if names != [] {
      var prefix := names[..|names| - 1];
      var x := names[|names| - 1];
      assert Select(table, names, c) == Select(table, prefix, c) + (if CategoryIn(table, x) == c then [x] else []);
      SelectNonEmpty(table, prefix, c);
      if Select(table, names, c) != [] {
        if CategoryIn(table, x) == c {
          assert CategoryIn(table, names[|names| - 1]) == c;
        } else {
          var i :| 0 <= i < |prefix| && CategoryIn(table, prefix[i]) == c;
          assert CategoryIn(table, names[i]) == c;
        }
      }
      if exists i :: 0 <= i < |names| && CategoryIn(table, names[i]) == c {
        var i :| 0 <= i < |names| && CategoryIn(table, names[i]) == c;
        if i < |prefix| {
          assert CategoryIn(table, prefix[i]) == c;
        }
      }
    }
  }

  lemma {:induction false} SelectMembers(table: map<string, string>, names: seq<string>, c: string, x: string)
    ensures x in Select(table, names, c) <==> x in names && CategoryIn(table, x) == c
  {
    if names != [] {
      var prefix := names[..|names| - 1];
      var last := names[|names| - 1];
      assert names == prefix + [last];
      SelectMembers(table, prefix, c, x);
    }
  }

  /**
   * The list stored under each category is exactly the input names of that category,
   * in their input order and original spelling; a category with no names has no key.
   */
  lemma {:induction false} GroupLookup(table: map<string, string>, names: seq<string>, c: string)
    ensures Get(Group(table, names), c) ==
            if Select(table, names, c) == [] then None else Some(Select(table, names, c))
  {
    if names != [] {
      var prefix := names[..|names| - 1];
      var x := names[|names| - 1];
      var k := CategoryIn(table, x);
      var g := Group(table, prefix);
      var v := GetOr(g, k, []) + [x];
      assert Group(table, names) == Put(g, k, v);
      assert Select(table, names, c) == Select(table, prefix, c) + (if k == c then [x] else []);
      GroupLookup(table, prefix, c);
      PutLookup(g, k, v, c);
      if k == c {
        assert GetOr(g, k, []) == Select(table, prefix, c);
        assert Get(Put(g, k, v), c) == Some(v);
        assert v == Select(table, names, c);
        assert Select(table, names, c) != [];
      } else {
        assert Select(table, names, c) == Select(table, prefix, c);
        assert Get(Put(g, k, v), c) == Get(g, c);
      }
    }
  }

  lemma {:induction false} GroupDistinct(table: map<string, string>, names: seq<string>)
    ensures DistinctKeys(Group(table, names))
  {
    if names != [] {
      var prefix := names[..|names| - 1];
      var x := names[|names| - 1];
      var k := CategoryIn(table, x);
      GroupDistinct(table, prefix);
      PutKeepsDistinct(Group(table, prefix), k, GetOr(Group(table, prefix), k, []) + [x]);
    }
  }

  /** The categories of `names`, one per name. */
  function CategoriesOf(table: map<string, string>, names: seq<string>): seq<string> {
    if names == [] then []
    else CategoriesOf(table, names[..|names| - 1]) + [CategoryIn(table, names[|names| - 1])]
  }

  /** Category keys appear in the order in which their first name occurs in the input. */
  lemma {:induction false} GroupKeyOrder(table: map<string, string>, names: seq<string>)
    ensures Keys(Group(table, names)) == FirstOccurrences(CategoriesOf(table, names))
  {
    if names != [] {
      var prefix := names[..|names| - 1];
      var x := names[|names| - 1];
      var k := CategoryIn(table, x);
      var g := Group(table, prefix);
      var v := GetOr(g, k, []) + [x];
      assert Group(table, names) == Put(g, k, v);
      var cs := CategoriesOf(table, names);
      assert cs == CategoriesOf(table, prefix) + [k];
      assert cs[..|cs| - 1] == CategoriesOf(table, prefix);
      GroupKeyOrder(table, prefix);
      PutKeys(g, k, v);
    }
  }

  /** Every name is counted once: the lists hold as many names as there are inputs. */
  lemma {:induction false} GroupLength(table: map<string, string>, names: seq<string>)
    ensures TotalLength(Group(table, names)) == |names|
  {
    if names != [] {
      var prefix := names[..|names| - 1];
      var x := names[|names| - 1];
      GroupLength(table, prefix);
      AppendToLength(Group(table, prefix), CategoryIn(table, x), x);
    }
  }

  lemma {:induction false} AllNamesLength(imports: Dict<string, seq<string>>)
    ensures |AllNames(imports)| == TotalLength(imports)
  {
    if imports != [] {
      var prefix := imports[..|imports| - 1];
      AllNamesLength(prefix);
      TotalLengthSnoc(prefix, imports[|imports| - 1]);
      assert prefix + [imports[|imports| - 1]] == imports;
    }
  }

  /** Count conservation: as many names leave the categorizer as entered it. */
  lemma CategorizedConservesCount(imports: Dict<string, seq<string>>)
    ensures TotalLength(Categorized(imports)) == TotalLength(imports)
  {
    AllNamesLength(imports);
    GroupLength(API_CATEGORIES, AllNames(imports));
  }

  /** Each category's list is the input names of that category, in input order. */
  lemma CategorizedLists(imports: Dict<string, seq<string>>, c: string)
    ensures var names := Select(API_CATEGORIES, AllNames(imports), c);
            Get(Categorized(imports), c) == if names == [] then None else Some(names)
  {
    GroupLookup(API_CATEGORIES, AllNames(imports), c);
  }

  /** Every input name is listed under its own category and under no other. */
  lemma CategorizedPlacement(imports: Dict<string, seq<string>>, x: string, c: string)
    requires x in AllNames(imports)
    ensures Get(Categorized(imports), CategoryOf(x)).Some?
    ensures x in Get(Categorized(imports), CategoryOf(x)).value
    ensures c != CategoryOf(x) && Get(Categorized(imports), c).Some? ==> x !in Get(Categorized(imports), c).value
  {
    var names := AllNames(imports);
    GroupLookup(API_CATEGORIES, names, CategoryOf(x));
    SelectMembers(API_CATEGORIES, names, CategoryOf(x), x);
    GroupLookup(API_CATEGORIES, names, c);
    SelectMembers(API_CATEGORIES, names, c, x);
  }

  /** Keys are ordered by the first input name of each category. */
  lemma CategorizedKeyOrder(imports: Dict<string, seq<string>>)
    ensures Keys(Categorized(imports)) == FirstOccurrences(CategoriesOf(API_CATEGORIES, AllNames(imports)))
  {
    GroupKeyOrder(API_CATEGORIES, AllNames(imports));
  }

  /**
   * The shape of the result: distinct keys, each a known tag and each holding a non-empty
   * list, and a key for exactly the categories that some input name has.
   */
  lemma CategorizedShape(imports: Dict<string, seq<string>>)
    ensures DistinctKeys(Categorized(imports))
    ensures forall i :: 0 <= i < |Categorized(imports)| ==>
              Categorized(imports)[i].0 in CATEGORY_TAGS && Categorized(imports)[i].1 != []
    ensures forall c :: c in Keys(Categorized(imports)) <==>
              exists n :: n in AllNames(imports) && CategoryOf(n) == c
  {
    var names := AllNames(imports);
    var g := Group(API_CATEGORIES, names);
    GroupDistinct(API_CATEGORIES, names);
    forall i | 0 <= i < |g| ensures g[i].0 in CATEGORY_TAGS && g[i].1 != [] {
      GetAtIndex(g, i);
      GroupLookup(API_CATEGORIES, names, g[i].0);
      SelectNonEmpty(API_CATEGORIES, names, g[i].0);
      var j :| 0 <= j < |names| && CategoryIn(API_CATEGORIES, names[j]) == g[i].0;
      CategoryOfRange(names[j]);
    }
    forall c ensures c in Keys(g) <==> exists n :: n in names && CategoryOf(n) == c {
      GroupLookup(API_CATEGORIES, names, c);
      SelectNonEmpty(API_CATEGORIES, names, c);
      assert c in Keys(g) <==> Get(g, c).Some?;
      if exists n :: n in names && CategoryOf(n) == c {
        var n :| n in names && CategoryOf(n) == c;
        var j :| 0 <= j < |names| && names[j] == n;
        assert CategoryIn(API_CATEGORIES, names[j]) == c;
      }
      if c in Keys(g) {
        var j :| 0 <= j < |names| && CategoryIn(API_CATEGORIES, names[j]) == c;
        assert names[j] in names && CategoryOf(names[j]) == c;
      }
    }
  }

  /** `CreateFileW`, `createfilew` and `_CreateFileW` share one key and land in file I/O. */
  lemma CreateFileSpellings()
    ensures Normalized("CreateFileW") == "createfilew"
    ensures Normalized("createfilew") == "createfilew"
    ensures Normalized("_CreateFileW") == "createfilew"
    ensures CategoryOf("CreateFileW") == "file_io"
    ensures CategoryOf("createfilew") == "file_io"
    ensures CategoryOf("_CreateFileW") == "file_io"
  {
    assert Strip("CreateFileW") == "CreateFileW";
    assert Strip("createfilew") == "createfilew";
    assert Strip("_CreateFileW") == "_CreateFileW";
    assert DropUnderscores("CreateFileW") == "CreateFileW";
    assert DropUnderscores("createfilew") == "createfilew";
    assert DropUnderscores("_CreateFileW") == "CreateFileW";
    assert Lower("CreateFileW") == "createfilew";
    assert Lower("createfilew") == "createfilew";
    assert "createfilew" in API_CATEGORIES && API_CATEGORIES["createfilew"] == "file_io";
  }
}
