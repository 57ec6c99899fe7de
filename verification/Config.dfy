/** From the configuration file to the argument vector of a system process:
    src/config/ConfigReader.cpp, Arguments::populate in src/process/systemprocess/system_process.cpp and
    createCStyleArgs in src/tools/string_tools.cpp. The file is its contents; an opened path is assumed. */
module Config {
  import opened Common
  import opened StringTools

  const PROCESS_FILE := "process_file"

  datatype Entry = Entry(key: string, value: string)

  // ---------- the line format ----------

  /** A line sets a value when it is not empty, is no comment, and has something after its first '='. */
  function ParseLine(line: string): Option<Entry> {
    if line == "" || line[0] == '#' then None
    else
      var k := IndexOf(line, '=');
      if k + 1 < |line| then Some(Entry(line[..k], line[k + 1..])) else None
  }

  /** Writing a setting as a line and parsing it returns that setting, and nothing else parses to it. */
  lemma ParseLineInverts(line: string, e: Entry)
    ensures ParseLine(line) == Some(e) <==>
      e.value != "" && '=' !in e.key && (e.key != "" ==> e.key[0] != '#') && line == e.key + "=" + e.value
  {
    if e.value != "" && '=' !in e.key && (e.key != "" ==> e.key[0] != '#') && line == e.key + "=" + e.value {
      IndexOfSeparator(e.key, '=', e.value);
      assert line[..|e.key|] == e.key && line[|e.key| + 1..] == e.value;
    }
  }

  function Stored(settings: map<string, string>, line: string): map<string, string> {
    var e := ParseLine(line);
    if e.Some? then settings[e.value.key := e.value.value] else settings
  }

  /** The map after all lines. */
  function Settings(lines: seq<string>): map<string, string> {
    if lines == [] then map[] else Stored(Settings(lines[..|lines| - 1]), lines[|lines| - 1])
  }

  /** Line i is the last one that sets this key. */
  predicate SetBy(lines: seq<string>, key: string, i: nat) {
    && i < |lines|
    && ParseLine(lines[i]).Some? && ParseLine(lines[i]).value.key == key
    && forall j :: i < j < |lines| && ParseLine(lines[j]).Some? ==> ParseLine(lines[j]).value.key != key
  }

  /** A key is present exactly when some line sets it, and the last such line wins. */
  lemma {:induction false} LastLineWins(lines: seq<string>, key: string)
    ensures key in Settings(lines) <==> exists i: nat :: SetBy(lines, key, i)
    ensures forall i: nat :: SetBy(lines, key, i) ==> Settings(lines)[key] == ParseLine(lines[i]).value.value
  {
    hide ParseLine;
    if lines == [] {
    } else {
      var n := |lines| - 1;
      var before := lines[..n];
      LastLineWins(before, key);
      if ParseLine(lines[n]).Some? && ParseLine(lines[n]).value.key == key {
        assert SetBy(lines, key, n);
      } else {
        assert forall i: nat :: i < n ==> (SetBy(lines, key, i) <==> SetBy(before, key, i));
        assert !SetBy(lines, key, n);
      }
    }
  }

  /** No stored value is empty. */
  lemma {:induction false} ValuesAreNotEmpty(lines: seq<string>)
    ensures forall key :: key in Settings(lines) ==> Settings(lines)[key] != ""
  {
    if lines == [] {
    } else {
      ValuesAreNotEmpty(lines[..|lines| - 1]);
    }
  }

  // ---------- the parameter list ----------

  /** "-key", value for each key in the given order. */
  function Flatten(order: seq<string>, settings: map<string, string>): seq<string>
    requires forall k :: k in order ==> k in settings
  {
    if order == [] then [] else
      Flatten(order[..|order| - 1], settings) + ["-" + order[|order| - 1], settings[order[|order| - 1]]]
  }

  /** Every key but process_file, once each. */
  ghost predicate Listing(order: seq<string>, settings: map<string, string>) {
    && (forall k :: k in order <==> k in settings && k != PROCESS_FILE)
    && (forall i, j :: 0 <= i < j < |order| ==> order[i] != order[j])
  }

  /** Every key but process_file and those still left, once each. */
  ghost predicate Listed(order: seq<string>, settings: map<string, string>, left: set<string>) {
    && left <= settings.Keys
    && (forall k :: k in order <==> k in settings && k != PROCESS_FILE && k !in left)
    && (forall i, j :: 0 <= i < j < |order| ==> order[i] != order[j])
  }

  lemma NothingListed(settings: map<string, string>)
    ensures Listed([], settings, settings.Keys) && Flatten([], settings) == []
  {
  }

  lemma EverythingListed(order: seq<string>, settings: map<string, string>)
    requires Listed(order, settings, {})
    ensures Listing(order, settings)
  {
  }

  lemma ListsOneMore(order: seq<string>, settings: map<string, string>, left: set<string>, key: string)
    requires Listed(order, settings, left) && key in left
    ensures key in settings
    ensures forall k :: k in order ==> k in settings
    ensures key == PROCESS_FILE ==> Listed(order, settings, left - {key})
    ensures key != PROCESS_FILE ==> Listed(order + [key], settings, left - {key})
    ensures forall k :: k in order + [key] ==> k in settings
    ensures Flatten(order + [key], settings) == Flatten(order, settings) + ["-" + key, settings[key]]
  {
    assert (order + [key])[..|order|] == order;
  }

  /** Reads a parameter list back. */
  function Unflatten(params: seq<string>): map<string, string>
    requires |params| % 2 == 0 && forall i :: 0 <= i < |params| ==> params[i] != ""
  {
    if params == [] then map[] else
      Unflatten(params[..|params| - 2])[params[|params| - 2][1..] := params[|params| - 1]]
  }

  lemma {:induction false} FlattenShape(order: seq<string>, settings: map<string, string>)
    requires forall k :: k in order ==> k in settings && settings[k] != ""
    ensures |Flatten(order, settings)| == 2 * |order|
    ensures forall i :: 0 <= i < |Flatten(order, settings)| ==> Flatten(order, settings)[i] != ""
  {
    if order == [] {
    } else {
      FlattenShape(order[..|order| - 1], settings);
    }
  }

  /** Pair i of the list is the i-th key with a dash, and its value. */
  lemma {:induction false} FlattenAt(order: seq<string>, settings: map<string, string>, i: nat)
    requires i < |order| && forall k :: k in order ==> k in settings
    ensures |Flatten(order, settings)| == 2 * |order|
    ensures Flatten(order, settings)[2 * i] == "-" + order[i]
    ensures Flatten(order, settings)[2 * i + 1] == settings[order[i]]
  {
    FlattenLength(order, settings);
    var n := |order| - 1;
    if i == n {
      FlattenLength(order[..n], settings);
    } else {
      FlattenAt(order[..n], settings, i);
    }
  }

  lemma {:induction false} FlattenLength(order: seq<string>, settings: map<string, string>)
    requires forall k :: k in order ==> k in settings
    ensures |Flatten(order, settings)| == 2 * |order|
  {
    if order == [] {
    } else {
      FlattenLength(order[..|order| - 1], settings);
    }
  }

  lemma UnflattenStep(params: seq<string>, key: string, value: string)
    requires |params| % 2 == 0 && (forall i :: 0 <= i < |params| ==> params[i] != "") && value != ""
    ensures Unflatten(params + ["-" + key, value]) == Unflatten(params)[key := value]
  {
    var longer := params + ["-" + key, value];
    assert longer[..|longer| - 2] == params;
    assert ("-" + key)[1..] == key;
  }

  /** The list carries exactly the settings it was made from: none is lost, added or changed, in whatever order. */
  lemma {:induction false} UnflattenOfFlatten(order: seq<string>, settings: map<string, string>)
    requires forall k :: k in order ==> k in settings && settings[k] != ""
    requires forall i, j :: 0 <= i < j < |order| ==> order[i] != order[j]
    ensures |Flatten(order, settings)| == 2 * |order|
    ensures forall i :: 0 <= i < |Flatten(order, settings)| ==> Flatten(order, settings)[i] != ""
    ensures Unflatten(Flatten(order, settings)) == map k | k in order :: settings[k]
  {
    hide Unflatten;
    FlattenShape(order, settings);
    if order == [] {
      NothingToUnflatten();
    } else {
      var n := |order| - 1;
      UnflattenOfFlatten(order[..n], settings);
      UnflattenStep(Flatten(order[..n], settings), order[n], settings[order[n]]);
      assert order == order[..n] + [order[n]];
    }
  }

  lemma NothingToUnflatten()
    ensures Unflatten([]) == map[]
  {
  }

  function Blanks(n: nat): (blanks: seq<string>)
    ensures |blanks| == n && forall i :: 0 <= i < n ==> blanks[i] == ""
  {
    seq(n, _ => "")
  }

  lemma {:induction false} BlanksVanish(n: nat)
    ensures NonEmpty(Blanks(n)) == []
  {
    if n == 0 {
    } else {
      BlanksVanish(n - 1);
      assert Blanks(n)[1..] == Blanks(n - 1);
    }
  }

  /** What resize and the pushes leave: two empty strings per key, then a listing of the settings. */
  ghost predicate IsParameterList(params: seq<string>, settings: map<string, string>) {
    exists order ::
      Listing(order, settings) && params == Blanks(2 * |settings|) + Flatten(order, settings)
  }

  lemma {:induction false} DistinctCount(order: seq<string>, keys: set<string>)
    requires forall k :: k in order <==> k in keys
    requires forall i, j :: 0 <= i < j < |order| ==> order[i] != order[j]
    ensures |order| == |keys|
  {
    if order == [] {
      assert forall k :: k !in keys;
      assert keys == {};
    } else {
      var n := |order| - 1;
      assert order == order[..n] + [order[n]];
      DistinctCount(order[..n], keys - {order[n]});
    }
  }

  /** The length of the list: one blank pair for every key, process_file included, and one real pair for every other. */
  lemma ListLength(params: seq<string>, settings: map<string, string>)
    requires IsParameterList(params, settings)
    ensures |params| == 2 * |settings| + 2 * |settings.Keys - {PROCESS_FILE}|
    ensures forall i :: 0 <= i < 2 * |settings| ==> params[i] == ""
  {
    var order :| Listing(order, settings) && params == Blanks(2 * |settings|) + Flatten(order, settings);
    DistinctCount(order, settings.Keys - {PROCESS_FILE});
    FlattenLength(order, settings);
  }

  // ---------- the reader ----------

  class ConfigReader {
    var configMap: map<string, string>
    var consecutiveParameters: seq<string>

    constructor (contents: string)
      ensures configMap == Settings(Split(contents, '\n'))
      ensures IsParameterList(consecutiveParameters, configMap)
      ensures |consecutiveParameters| == 2 * |configMap| + 2 * |configMap.Keys - {PROCESS_FILE}|
      ensures forall i :: 0 <= i < 2 * |configMap| ==> consecutiveParameters[i] == ""
    {
      configMap, consecutiveParameters := map[], [];
      new;
      ParseConfigFile(contents);
      ListLength(consecutiveParameters, configMap);
    }

    method ParseConfigFile(contents: string)
      requires configMap == map[] && consecutiveParameters == []
      modifies this
      ensures configMap == Settings(Split(contents, '\n'))
      ensures IsParameterList(consecutiveParameters, configMap)
    {
      var lines := SplitString(contents, '\n');
      for i := 0 to |lines|
        invariant configMap == Settings(lines[..i]) && consecutiveParameters == []
      {
        assert lines[..i + 1][..i] == lines[..i];
        var line := lines[i];
        if line == "" || line[0] == '#' {
          continue;
        }
        var k := IndexOf(line, '=');
        if k + 1 < |line| {
          configMap := configMap[line[..k] := line[k + 1..]];
        }
      }
      assert lines[..|lines|] == lines;
      ListParameters();
    }

    /** The map is visited in an order nobody promises. */
    method ListParameters()
      requires consecutiveParameters == []
      modifies this`consecutiveParameters
      ensures IsParameterList(consecutiveParameters, configMap)
    {
      hide Listed, Flatten;
      consecutiveParameters := Blanks(2 * |configMap|);
      ghost var order: seq<string> := [];
      var left := configMap.Keys;
      NothingListed(configMap);
      while left != {}
        invariant Listed(order, configMap, left)
        invariant forall k :: k in order ==> k in configMap
        invariant consecutiveParameters == Blanks(2 * |configMap|) + Flatten(order, configMap)
        decreases |left|
      {
        var key: string :| key in left;
        ListsOneMore(order, configMap, left, key);
        if key != PROCESS_FILE {
          consecutiveParameters := consecutiveParameters + ["-" + key];
          consecutiveParameters := consecutiveParameters + [configMap[key]];
          order := order + [key];
        }
        left := left - {key};
      }
      EverythingListed(order, configMap);
    }

    function GetValue(key: string): Option<string>
      reads this
    {
      if key in configMap then Some(configMap[key]) else None
    }
  }

  // ---------- the argument vector ----------

  class Arguments {
    var args: seq<string>

    constructor ()
      ensures args == []
    {
      args := [];
    }

    /** Filled once, by the first successful call. A missing process_file is logged and swallowed: the call still
        reports success. `regular`: the path names an existing regular file. */
    method Populate(reader: ConfigReader, regular: bool) returns (ok: bool)
      modifies this
      ensures old(args) != [] ==> ok && args == old(args)
      ensures old(args) == [] && PROCESS_FILE !in reader.configMap ==> ok && args == []
      ensures old(args) == [] && PROCESS_FILE in reader.configMap ==>
        ok == regular && args == if regular then [reader.configMap[PROCESS_FILE]] + reader.consecutiveParameters else []
    {
      if args == [] {
        var file := reader.GetValue(PROCESS_FILE);
        if file.None? {
          return true;
        }
        if !regular {
          return false;
        }
        args := args + [file.value];
        var params := reader.consecutiveParameters;
        for i := 0 to |params|
          invariant args == [file.value] + params[..i]
        {
          args := args + [params[i]];
        }
      }
      return true;
    }
  }

  /** The vector handed to posix_spawn for these settings: the executable, one "-key", value pair for every other
      key in some order, the null pointer. */
  ghost predicate IsVector(pointers: seq<Option<string>>, settings: map<string, string>)
    requires PROCESS_FILE in settings
  {
    exists order ::
      Listing(order, settings) && pointers == Pointers([settings[PROCESS_FILE]] + Flatten(order, settings)) + [None]
  }

  /** Dropping the empty strings drops the blanks and nothing else. */
  lemma OnlyBlanksVanish(file: string, order: seq<string>, settings: map<string, string>)
    requires file != "" && forall k :: k in order ==> k in settings && settings[k] != ""
    ensures NonEmpty([file] + (Blanks(2 * |settings|) + Flatten(order, settings))) == [file] + Flatten(order, settings)
  {
    FlattenShape(order, settings);
    BlanksVanish(2 * |settings|);
    NonEmptyKeeps(Flatten(order, settings));
    NonEmptyConcat(Blanks(2 * |settings|), Flatten(order, settings));
    NonEmptyConcat([file], Blanks(2 * |settings|) + Flatten(order, settings));
  }

  /** SystemProcess::work from a fresh start: None means that nothing is spawned. Without process_file the vector is
      the null pointer alone, because Populate reports success. */
  method SpawnVector(contents: string, regular: bool) returns (vector: Option<seq<Option<string>>>)
    ensures var settings := Settings(Split(contents, '\n'));
      && (PROCESS_FILE !in settings ==> vector == Some([None]))
      && (PROCESS_FILE in settings && !regular ==> vector == None)
      && (PROCESS_FILE in settings && regular ==> vector.Some? && IsVector(vector.value, settings))
  {
    var reader := new ConfigReader(contents);
    var arguments := new Arguments();
    var ok := arguments.Populate(reader, regular);
    if !ok {
      return None;
    }
    var pointers := CreateCStyleArgs(arguments.args);
    ghost var settings := reader.configMap;
    if PROCESS_FILE in settings {
      ValuesAreNotEmpty(Split(contents, '\n'));
      ghost var order :| Listing(order, settings) &&
        reader.consecutiveParameters == Blanks(2 * |settings|) + Flatten(order, settings);
      OnlyBlanksVanish(settings[PROCESS_FILE], order, settings);
    } else {
      assert pointers == [None];
    }
    return Some(pointers);
  }

  /** What the spawned program can read off the vector: the file and every other setting, in full. */
  lemma VectorCarriesSettings(order: seq<string>, lines: seq<string>)
    requires PROCESS_FILE in Settings(lines) && Listing(order, Settings(lines))
    ensures |Flatten(order, Settings(lines))| == 2 * |order|
    ensures forall i :: 0 <= i < 2 * |order| ==> Flatten(order, Settings(lines))[i] != ""
    ensures Unflatten(Flatten(order, Settings(lines)))[PROCESS_FILE := Settings(lines)[PROCESS_FILE]] == Settings(lines)
  {
    ValuesAreNotEmpty(lines);
    UnflattenOfFlatten(order, Settings(lines));
  }
}
