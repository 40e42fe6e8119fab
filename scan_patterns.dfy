/** The scan pattern registry: a fixed table of built-in patterns and a map of user patterns
    that is saved to and loaded from a file. */
module ScanPatterns {
  import opened Wrappers
  import opened AodHandling

  /** A pattern: its display name, a description and its default parameters. */
  datatype Pattern = Pattern(name: string, description: string, params: Params)

  type Table = map<string, Pattern>

  /** The built-in patterns. */
  function Builtin(): Table {
    map[
      "point" := Pattern("Точка", "Фиксированное положение луча", map["angle" := Float(0.0)]),
      "line" := Pattern("Линия", "Сканирование по линии",
                        map["start_angle" := Float(-0.5), "end_angle" := Float(0.5), "speed" := Float(0.1), "steps" := Int(20)]),
      "square" := Pattern("Квадрат", "Сканирование по квадрату",
                          map["size" := Float(0.5), "speed" := Float(0.1), "steps" := Int(10)]),
      "circle" := Pattern("Окружность", "Сканирование по окружности",
                          map["radius" := Float(0.5), "speed" := Float(0.1), "steps" := Int(50)]),
      "zigzag" := Pattern("Зигзаг", "Сканирование зигзагом",
                          map["amplitude" := Float(0.5), "frequency" := Float(0.5), "duration" := Int(10)])
    ]
  }

  /** `get_pattern`: a built-in pattern first, then a user pattern of that id. */
  function Lookup(custom: Table, id: string): (r: Option<Pattern>)
    ensures r.Some? <==> id in Builtin() || id in custom
  {
    if id in Builtin() then Some(Builtin()[id])
    else if id in custom then Some(custom[id])
    else None
  }

  /** The built-in ids are exactly the pattern names the handler runs. */
  lemma BuiltinIds()
    ensures Builtin().Keys == Patterns
  {
    assert Patterns == {"point", "line", "square", "circle", "zigzag"};
  }

  /** The built-in line and square defaults are the handler's own fallbacks, so starting them with
      their defaults scans exactly as starting them with no parameters. */
  lemma BuiltinDefaultsAgree()
    ensures LinePlan(Builtin()["line"].params) == LinePlan(map[])
    ensures SquarePlan(Builtin()["square"].params) == SquarePlan(map[])
    ensures PointAngle(Builtin()["point"].params) == PointAngle(map[])
  {
    var line := Builtin()["line"].params;
    assert StartAngle(line) == StartAngle(map[]) && EndAngle(line) == EndAngle(map[]);
    assert Speed(line) == Speed(map[]) && LineSteps(line) == LineSteps(map[]);
    var square := Builtin()["square"].params;
    assert HalfSide(square) == HalfSide(map[]) && Speed(square) == Speed(map[]);
    assert SideSteps(square) == SideSteps(map[]);
  }

  /** A user pattern saved under a built-in id is never returned by `get_pattern`. */
  lemma BuiltinShadowsCustom(custom: Table, id: string)
    requires id in Builtin()
    ensures Lookup(custom, id) == Some(Builtin()[id])
  {
  }

  /** After saving `data` under `id`, `get_pattern(id)` returns it unless `id` is built in. */
  lemma SaveThenLookup(custom: Table, id: string, data: Pattern)
    ensures Lookup(custom[id := data], id) == (if id in Builtin() then Some(Builtin()[id]) else Some(data))
    ensures forall other :: other != id ==> Lookup(custom[id := data], other) == Lookup(custom, other)
  {
  }

  /** After deleting `id`, `get_pattern(id)` finds only a built-in pattern. */
  lemma DeleteThenLookup(custom: Table, id: string)
    ensures Lookup(custom - {id}, id) == (if id in Builtin() then Some(Builtin()[id]) else None)
    ensures forall other :: other != id ==> Lookup(custom - {id}, other) == Lookup(custom, other)
  {
  }

  /** The listing of all patterns has both maps' ids; where both have an id, the user pattern is
      listed, although `get_pattern` returns the built-in one. */
  lemma ListingPrecedence(custom: Table, id: string)
    requires id in Builtin() && id in custom && custom[id] != Builtin()[id]
    ensures id in Builtin() + custom
    ensures (Builtin() + custom)[id] == custom[id] && Lookup(custom, id) != Some((Builtin() + custom)[id])
  {
  }

  class ScanPatternModel {
    var custom: Table
    /** Every snapshot of the user patterns handed to the file writer, in order. */
    var written: seq<Table>

    /** `loaded` is what reading the pattern file yields: nothing when it is missing; `None` also
        when reading or decoding it fails, which leaves the user patterns empty. */
    constructor (loaded: Option<Table>)
      ensures custom == (if loaded.Some? then loaded.value else map[]) && written == []
    {
      custom := map[];
      written := [];
      if loaded.Some? {
        custom := loaded.value;
      }
    }

    method GetPattern(id: string) returns (r: Option<Pattern>)
      ensures r == Lookup(custom, id)
    {
      if id in Builtin() {
        return Some(Builtin()[id]);
      } else if id in custom {
        return Some(custom[id]);
      }
      return None;
    }

    /** Starts from an empty map and updates it with the built-in, then the user patterns. */
    method GetAllPatterns() returns (all: Table)
      ensures all.Keys == Builtin().Keys + custom.Keys
      ensures forall id :: id in custom ==> all[id] == custom[id]
      ensures forall id :: id in Builtin() && id !in custom ==> all[id] == Builtin()[id]
    {
      all := map[];
      all := all + Builtin();
      all := all + custom;
    }

    method SaveCustomPattern(id: string, data: Pattern) returns (ok: bool)
      modifies this
      ensures ok && custom == old(custom)[id := data] && written == old(written) + [custom]
    {
      custom := custom[id := data];
      written := written + [custom];
      ok := true;
    }

    method DeleteCustomPattern(id: string) returns (ok: bool)
      modifies this
      ensures ok == (id in old(custom))
      ensures ok ==> custom == old(custom) - {id} && written == old(written) + [custom]
      ensures !ok ==> custom == old(custom) && written == old(written)
    {
      if id in custom {
        custom := custom - {id};
        written := written + [custom];
        return true;
      }
      ok := false;
    }
  }
}
