/** Conversion of config values between YAML spelling and in-memory spelling (file-format.ts). */
module FileFormat {
  import opened ConfigKeys
  import opened JsonValues

  /** path.join('.') */
  function Joined(path: seq<string>): string {
    if path == [] then ""
    else if |path| == 1 then path[0]
    else path[0] + "." + Joined(path[1..])
  }

  predicate ShouldPreserveMapKeys(path: seq<string>) {
    var joined := Joined(path);
    || joined == "llm.providers"
    || joined == "llm.models"
    || joined == "llm.routing.taskToModel"
    || joined == "llm.routing.phaseToModel"
    || joined == "llm.routing.phaseToProviderModel"
    || (|path| > 0 && path[|path| - 1] == "headers")
  }

  predicate DotFree(path: seq<string>) {
    forall k | 0 <= k < |path| :: '.' !in path[k] && path[k] != ""
  }

  /** Paths without dots in their names are told apart by their joined names. */
  lemma {:induction false} JoinedShows(p: seq<string>, q: seq<string>)
    requires DotFree(p) && DotFree(q) && Joined(p) == Joined(q)
    ensures p == q
    decreases |p|
  {
    if p == [] || q == [] {
    } else if |p| == 1 || |q| == 1 {
      OneName(p, q);
    } else {
      FirstName(p[0], Joined(p[1..]), q[0], Joined(q[1..]));
      JoinedShows(p[1..], q[1..]);
      assert p == [p[0]] + p[1..] && q == [q[0]] + q[1..];
    }
  }

  lemma JoinedHasDot(p: seq<string>)
    requires |p| > 1
    ensures '.' in Joined(p)
  {
    assert Joined(p)[|p[0]|] == '.';
  }

  lemma OneName(p: seq<string>, q: seq<string>)
    requires p != [] && q != [] && (|p| == 1 || |q| == 1) && DotFree(p) && DotFree(q) && Joined(p) == Joined(q)
    ensures p == q
  {
    if |p| > 1 {
      JoinedHasDot(p);
    } else if |q| > 1 {
      JoinedHasDot(q);
    }
  }

  function FirstDot(s: string): nat {
    if s == "" || s[0] == '.' then 0 else 1 + FirstDot(s[1..])
  }

  lemma {:induction false} FirstDotAt(a: string, s: string)
    requires '.' !in a
    ensures FirstDot(a + "." + s) == |a|
  {
    if a == "" {
    } else {
      FirstDotAt(a[1..], s);
      assert (a + "." + s)[1..] == a[1..] + "." + s;
    }
  }

  lemma FirstName(a: string, s: string, b: string, t: string)
    requires '.' !in a && '.' !in b && a + "." + s == b + "." + t
    ensures a == b && s == t
  {
    var all := a + "." + s;
    FirstDotAt(a, s);
    FirstDotAt(b, t);
    assert a == all[..|a|] && b == all[..|b|];
    assert s == all[|a| + 1..] && t == all[|b| + 1..];
  }

  predicate Plain(name: string) {
    name != "" && '.' !in name
  }

  lemma TwoNames(path: seq<string>, a: string, b: string)
    requires DotFree(path) && Plain(a) && Plain(b)
    ensures Joined(path) == a + "." + b <==> path == [a, b]
  {
    assert [a, b][1..] == [b] && DotFree([a, b]) && Joined([a, b]) == a + "." + b;
    if Joined(path) == a + "." + b {
      JoinedShows(path, [a, b]);
    }
  }

  lemma ThreeNames(path: seq<string>, a: string, b: string, c: string)
    requires DotFree(path) && Plain(a) && Plain(b) && Plain(c)
    ensures Joined(path) == a + "." + (b + "." + c) <==> path == [a, b, c]
  {
    assert [a, b, c][1..] == [b, c] && [b, c][1..] == [c] && DotFree([a, b, c]);
    assert Joined([b, c]) == b + "." + c;
    assert Joined([a, b, c]) == a + "." + (b + "." + c);
    if Joined(path) == a + "." + (b + "." + c) {
      JoinedShows(path, [a, b, c]);
    }
  }

  lemma TwoLevelNames(path: seq<string>)
    requires DotFree(path)
    ensures Joined(path) == "llm.providers" <==> path == ["llm", "providers"]
    ensures Joined(path) == "llm.models" <==> path == ["llm", "models"]
  {
    TwoNames(path, "llm", "providers");
    assert "llm" + "." + "providers" == "llm.providers";
    TwoNames(path, "llm", "models");
    assert "llm" + "." + "models" == "llm.models";
  }

  lemma RoutingName(path: seq<string>, name: string)
    requires DotFree(path) && Plain(name)
    ensures Joined(path) == "llm.routing." + name <==> path == ["llm", "routing", name]
  {
    assert "llm" + "." + ("routing" + "." + name) == "llm.routing." + name;
    ThreeNames(path, "llm", "routing", name);
  }

  lemma RoutingNames(path: seq<string>)
    requires DotFree(path)
    ensures Joined(path) == "llm.routing.taskToModel" <==> path == ["llm", "routing", "taskToModel"]
    ensures Joined(path) == "llm.routing.phaseToModel" <==> path == ["llm", "routing", "phaseToModel"]
  {
    RoutingName(path, "taskToModel");
    assert "llm.routing." + "taskToModel" == "llm.routing.taskToModel";
    RoutingName(path, "phaseToModel");
    assert "llm.routing." + "phaseToModel" == "llm.routing.phaseToModel";
  }

  lemma ProviderRoutingName(path: seq<string>)
    requires DotFree(path)
    ensures Joined(path) == "llm.routing.phaseToProviderModel" <==> path == ["llm", "routing", "phaseToProviderModel"]
  {
    RoutingName(path, "phaseToProviderModel");
    assert "llm.routing." + "phaseToProviderModel" == "llm.routing.phaseToProviderModel";
  }

  /** The maps whose keys are data and not names of settings: five of them, and every `headers`. */
  lemma PreservedPaths(path: seq<string>)
    requires DotFree(path)
    ensures ShouldPreserveMapKeys(path) <==>
              || path == ["llm", "providers"] || path == ["llm", "models"]
              || path == ["llm", "routing", "taskToModel"] || path == ["llm", "routing", "phaseToModel"]
              || path == ["llm", "routing", "phaseToProviderModel"]
              || (path != [] && path[|path| - 1] == "headers")
  {
    TwoLevelNames(path);
    RoutingNames(path);
    ProviderRoutingName(path);
  }

  /** out[key] = value: the position of a known key is kept. */
  function Assign(out: seq<Entry>, key: string, value: Json): seq<Entry> {
    if out == [] then [Entry(key, value)]
    else if out[0].key == key then [Entry(key, value)] + out[1..]
    else [out[0]] + Assign(out[1..], key, value)
  }

  /** Assigning the fields of a list one after the other to an empty object. */
  function AssignAll(fields: seq<Entry>): seq<Entry> {
    if fields == [] then []
    else
      var last := fields[|fields| - 1];
      Assign(AssignAll(fields[..|fields| - 1]), last.key, last.value)
  }

  // ---------------------------------------------------------------- the two directions

  function ToYaml(lower: Lowering, value: Json, path: seq<string>): Json
    decreases value, 0
  {
    match value
    case Undefined => value
    case Leaf(_) => value
    case Array(items) => Array(ItemsToYaml(lower, items, path))
    case Object(fields) => Object(AssignAll(FieldsToYaml(lower, fields, path)))
  }

  function ItemsToYaml(lower: Lowering, items: seq<Json>, path: seq<string>): (r: seq<Json>)
    ensures |r| == |items|
  {
    if items == [] then []
    else ItemsToYaml(lower, items[..|items| - 1], path) + [ToYaml(lower, items[|items| - 1], path)]
  }

  function YamlKey(lower: Lowering, path: seq<string>, key: string): string {
    if ShouldPreserveMapKeys(path) then key else CamelToSnake(key, lower)
  }

  function FieldsToYaml(lower: Lowering, fields: seq<Entry>, path: seq<string>): (r: seq<Entry>)
    ensures |r| == |fields|
    decreases fields, 1
  {
    if fields == [] then []
    else
      var last := fields[|fields| - 1];
      FieldsToYaml(lower, fields[..|fields| - 1], path)
      + [Entry(YamlKey(lower, path, last.key), ToYaml(lower, last.value, path + [last.key]))]
  }

  function ToInternal(value: Json, path: seq<string>): Json
    decreases value, 0
  {
    match value
    case Undefined => value
    case Leaf(_) => value
    case Array(items) => Array(ItemsToInternal(items, path))
    case Object(fields) => Object(AssignAll(FieldsToInternal(fields, path)))
  }

  function ItemsToInternal(items: seq<Json>, path: seq<string>): (r: seq<Json>)
    ensures |r| == |items|
  {
    if items == [] then [] else ItemsToInternal(items[..|items| - 1], path) + [ToInternal(items[|items| - 1], path)]
  }

  function InternalKey(path: seq<string>, key: string): string {
    if ShouldPreserveMapKeys(path) then key else SnakeToCamel(key)
  }

  function FieldsToInternal(fields: seq<Entry>, path: seq<string>): (r: seq<Entry>)
    ensures |r| == |fields|
    decreases fields, 1
  {
    if fields == [] then []
    else
      var last := fields[|fields| - 1];
      var key := InternalKey(path, last.key);
      FieldsToInternal(fields[..|fields| - 1], path) + [Entry(key, ToInternal(last.value, path + [key]))]
  }

  // ---------------------------------------------------------------- objects and collisions

  predicate HasKey(fields: seq<Entry>, key: string) {
    exists i :: 0 <= i < |fields| && fields[i].key == key
  }

  lemma {:induction false} AssignNew(out: seq<Entry>, key: string, value: Json)
    ensures HasKey(out, key) ==> |Assign(out, key, value)| == |out|
    ensures !HasKey(out, key) ==> Assign(out, key, value) == out + [Entry(key, value)]
  {
    if out == [] || out[0].key == key {
    } else {
      AssignNew(out[1..], key, value);
      if HasKey(out, key) {
        var i :| 0 <= i < |out| && out[i].key == key;
        assert out[1..][i - 1].key == key;
      }
    }
  }

  lemma DistinctFront(fields: seq<Entry>)
    requires DistinctKeys(fields) && fields != []
    ensures var front := fields[..|fields| - 1];
            DistinctKeys(front) && !HasKey(front, fields[|fields| - 1].key)
  {
  }

  /** No collisions: the object holds the list as it is. Otherwise it is shorter. */
  lemma {:induction false} AssignAllExact(fields: seq<Entry>)
    ensures |AssignAll(fields)| <= |fields|
    ensures |AssignAll(fields)| == |fields| ==> AssignAll(fields) == fields
    ensures DistinctKeys(fields) ==> AssignAll(fields) == fields
  {
    if fields == [] {
    } else {
      var front, last := fields[..|fields| - 1], fields[|fields| - 1];
      AssignAllExact(front);
      AssignNew(AssignAll(front), last.key, last.value);
      assert fields == front + [last];
      if DistinctKeys(fields) {
        DistinctFront(fields);
      }
    }
  }

  lemma {:induction false} YamlAt(lower: Lowering, fields: seq<Entry>, path: seq<string>, i: nat)
    requires i < |fields|
    ensures FieldsToYaml(lower, fields, path)[i]
            == Entry(YamlKey(lower, path, fields[i].key), ToYaml(lower, fields[i].value, path + [fields[i].key]))
  {
    if i == |fields| - 1 {
    } else {
      YamlAt(lower, fields[..|fields| - 1], path, i);
    }
  }

  lemma {:induction false} InternalAt(fields: seq<Entry>, path: seq<string>, i: nat)
    requires i < |fields|
    ensures var key := InternalKey(path, fields[i].key);
            FieldsToInternal(fields, path)[i] == Entry(key, ToInternal(fields[i].value, path + [key]))
  {
    if i == |fields| - 1 {
    } else {
      InternalAt(fields[..|fields| - 1], path, i);
    }
  }

  lemma {:induction false} ItemsAt(lower: Lowering, items: seq<Json>, path: seq<string>, i: nat)
    requires i < |items|
    ensures ItemsToYaml(lower, items, path)[i] == ToYaml(lower, items[i], path)
    ensures ItemsToInternal(items, path)[i] == ToInternal(items[i], path)
  {
    if i == |items| - 1 {
    } else {
      ItemsAt(lower, items[..|items| - 1], path, i);
    }
  }

  // ---------------------------------------------------------------- round trip

  /** Every key outside the preserved maps is well formed. */
  ghost predicate WellKeyed(lower: Lowering, value: Json, path: seq<string>) {
    match value
    case Undefined => true
    case Leaf(_) => true
    case Array(items) => forall i | 0 <= i < |items| :: WellKeyed(lower, items[i], path)
    case Object(fields) =>
      forall i | 0 <= i < |fields| ::
        && (ShouldPreserveMapKeys(path) || WellFormedKey(fields[i].key, lower))
        && WellKeyed(lower, fields[i].value, path + [fields[i].key])
  }

  lemma {:induction false} KeyReturns(lower: Lowering, path: seq<string>, key: string)
    requires Lowers(lower)
    ensures InternalKey(path, YamlKey(lower, path, key)) == key
            <==> ShouldPreserveMapKeys(path) || WellFormedKey(key, lower)
  {
    KeyRoundTrip(key, lower);
  }

  /** Converting to YAML and back is the identity exactly on values whose keys are all well formed. */
  lemma {:induction false} RoundTrip(lower: Lowering, value: Json, path: seq<string>)
    requires Lowers(lower)
    requires Proper(value)
    ensures ToInternal(ToYaml(lower, value, path), path) == value <==> WellKeyed(lower, value, path)
    decreases value
  {
    match value
    case Undefined =>
    case Leaf(_) =>
    case Array(items) => RoundTripItems(lower, items, path);
    case Object(fields) =>
      if WellKeyed(lower, value, path) {
        RoundTripFields(lower, fields, path);
      }
      if ToInternal(ToYaml(lower, value, path), path) == value {
        RoundTripForces(lower, fields, path);
      }
  }

  lemma {:induction false} RoundTripItems(lower: Lowering, items: seq<Json>, path: seq<string>)
    requires Lowers(lower)
    requires forall i | 0 <= i < |items| :: Proper(items[i])
    ensures ItemsToInternal(ItemsToYaml(lower, items, path), path) == items
            <==> forall i | 0 <= i < |items| :: WellKeyed(lower, items[i], path)
    decreases items, 0
  {
    var yaml := ItemsToYaml(lower, items, path);
    var back := ItemsToInternal(yaml, path);
    forall i | 0 <= i < |items| ensures back[i] == items[i] <==> WellKeyed(lower, items[i], path) {
      ItemsAt(lower, items, path, i);
      ItemsAt(lower, yaml, path, i);
      RoundTrip(lower, items[i], path);
    }
  }

  lemma {:induction false} RoundTripFields(lower: Lowering, fields: seq<Entry>, path: seq<string>)
    requires Lowers(lower)
    requires Proper(Object(fields)) && WellKeyed(lower, Object(fields), path)
    ensures ToInternal(ToYaml(lower, Object(fields), path), path) == Object(fields)
    decreases fields, 0
  {
    var yaml := FieldsToYaml(lower, fields, path);
    forall i, j | 0 <= i < j < |fields| ensures yaml[i].key != yaml[j].key {
      YamlAt(lower, fields, path, i);
      YamlAt(lower, fields, path, j);
      KeyReturns(lower, path, fields[i].key);
      KeyReturns(lower, path, fields[j].key);
    }
    AssignAllExact(yaml);
    var back := FieldsToInternal(yaml, path);
    forall i | 0 <= i < |fields| ensures back[i] == fields[i] {
      YamlAt(lower, fields, path, i);
      InternalAt(yaml, path, i);
      KeyReturns(lower, path, fields[i].key);
      RoundTrip(lower, fields[i].value, path + [fields[i].key]);
    }
    assert back == fields;
    AssignAllExact(back);
  }

  /** If nothing was lost, no two keys collided on the way, so each key came back at its own place. */
  lemma {:induction false} RoundTripForces(lower: Lowering, fields: seq<Entry>, path: seq<string>)
    requires Lowers(lower)
    requires Proper(Object(fields))
    requires ToInternal(ToYaml(lower, Object(fields), path), path) == Object(fields)
    ensures WellKeyed(lower, Object(fields), path)
    decreases fields, 0
  {
    var yaml := FieldsToYaml(lower, fields, path);
    AssignAllExact(yaml);
    AssignAllExact(FieldsToInternal(AssignAll(yaml), path));
    assert AssignAll(yaml) == yaml;
    var back := FieldsToInternal(yaml, path);
    assert back == fields;
    forall i | 0 <= i < |fields|
      ensures ShouldPreserveMapKeys(path) || WellFormedKey(fields[i].key, lower)
      ensures WellKeyed(lower, fields[i].value, path + [fields[i].key])
    {
      YamlAt(lower, fields, path, i);
      InternalAt(yaml, path, i);
      KeyReturns(lower, path, fields[i].key);
      RoundTrip(lower, fields[i].value, path + [fields[i].key]);
    }
  }

  // ---------------------------------------------------------------- the converters

  method ConvertInternalToYamlOutput(lower: Lowering, value: Json, path: seq<string>) returns (r: Json)
    ensures r == ToYaml(lower, value, path)
    decreases value
  {
    match value
    case Undefined =>
      r := value;
    case Leaf(_) =>
      r := value;
    case Array(items) =>
      var out := [];
      for i := 0 to |items|
        invariant out == ItemsToYaml(lower, items[..i], path)
      {
        var item := ConvertInternalToYamlOutput(lower, items[i], path);
        assert items[..i + 1][..i] == items[..i];
        out := out + [item];
      }
      assert items[..|items|] == items;
      r := Array(out);
    case Object(fields) =>
      var out: seq<Entry> := [];
      for i := 0 to |fields|
        invariant out == AssignAll(FieldsToYaml(lower, fields[..i], path))
      {
        var k := fields[i].key;
        var v := ConvertInternalToYamlOutput(lower, fields[i].value, path + [k]);
        var sk := if ShouldPreserveMapKeys(path) then k else CamelToSnake(k, lower);
        assert fields[..i + 1][..i] == fields[..i];
        out := Assign(out, sk, v);
      }
      assert fields[..|fields|] == fields;
      r := Object(out);
  }

  method ConvertYamlInputToInternal(value: Json, path: seq<string>) returns (r: Json)
    ensures r == ToInternal(value, path)
    decreases value
  {
    match value
    case Undefined =>
      r := value;
    case Leaf(_) =>
      r := value;
    case Array(items) =>
      var out := [];
      for i := 0 to |items|
        invariant out == ItemsToInternal(items[..i], path)
      {
        var item := ConvertYamlInputToInternal(items[i], path);
        assert items[..i + 1][..i] == items[..i];
        out := out + [item];
      }
      assert items[..|items|] == items;
      r := Array(out);
    case Object(fields) =>
      var out: seq<Entry> := [];
      for i := 0 to |fields|
        invariant out == AssignAll(FieldsToInternal(fields[..i], path))
      {
        var ck := if ShouldPreserveMapKeys(path) then fields[i].key else SnakeToCamel(fields[i].key);
        var v := ConvertYamlInputToInternal(fields[i].value, path + [ck]);
        assert fields[..i + 1][..i] == fields[..i];
        out := Assign(out, ck, v);
      }
      assert fields[..|fields|] == fields;
      r := Object(out);
  }

  /** Writing a config as YAML and reading it back, by the converters themselves. */
  method WriteThenRead(lower: Lowering, config: Json) returns (r: Json)
    requires Lowers(lower)
    requires Proper(config)
    ensures r == config <==> WellKeyed(lower, config, [])
  {
    var yaml := ConvertInternalToYamlOutput(lower, config, []);
    r := ConvertYamlInputToInternal(yaml, []);
    RoundTrip(lower, config, []);
  }

  /** A config with a key of two adjacent capitals does not come back. */
  lemma {:induction false} AdjacentCapitalsConfig(lower: Lowering, value: Json)
    requires Lowers(lower) && Proper(value)
    ensures var config := Object([Entry("aBC", value)]);
            ToInternal(ToYaml(lower, config, []), []) != config
  {
    var config := Object([Entry("aBC", value)]);
    AdjacentCapitalsAreLost(lower);
    KeyRoundTrip("aBC", lower);
    assert !WellKeyed(lower, config, []) by {
      assert config.entries[0].key == "aBC" && !ShouldPreserveMapKeys([]);
    }
    RoundTrip(lower, config, []);
  }
}
