/** Documents as `yaml.safe_load` (and `json.load`) return them, the subscript chains the
    dashboard applies to them (`config['receivers'][0]`), and `dict.update` applied in place
    at the end of such a chain, expressed as the document it leaves behind. */
module YamlDoc {
  import opened Wrappers

  datatype Yaml =
    | YNull
    | YBool(b: bool)
    | YInt(i: int)
    | YReal(r: real)
    | YStr(s: string)
    | YList(items: seq<Yaml>)
    | YMap(fields: map<string, Yaml>)

  /** The Python exceptions a subscript or an `.update` call can raise. */
  datatype PyError = KeyError | IndexError | TypeError | AttributeError

  /** One subscript: `[k]` with a string key, or `[i]` with a non-negative index. */
  datatype Step = Key(k: string) | Index(i: nat)

  type Path = seq<Step>

  /** `y[step]` with Python's outcomes: a dict looked up with an integer raises KeyError,
      a string indexed by an integer yields a one-character string, anything else that is
      not subscriptable that way raises TypeError. */
  function Subscript(y: Yaml, step: Step): (r: Result<Yaml, PyError>)
    ensures r.Ok? ==> (y.YMap? && step.Key?) || (step.Index? && (y.YList? || y.YStr?))
    ensures r.Ok? && y.YStr? ==> r.value.YStr?
  {
    match step
    case Key(k) =>
      (match y
       case YMap(f) => if k in f then Ok(f[k]) else Err(KeyError)
       case _ => Err(TypeError))
    case Index(i) =>
      (match y
       case YList(items) => if i < |items| then Ok(items[i]) else Err(IndexError)
       case YStr(s) => if i < |s| then Ok(YStr([s[i]])) else Err(IndexError)
       case YMap(_) => Err(KeyError)
       case _ => Err(TypeError))
  }

  /** `y[p0][p1]...`, stopping at the first subscript that raises. */
  function GetPath(y: Yaml, path: Path): Result<Yaml, PyError>
    decreases |path|
  {
    if path == [] then Ok(y)
    else
      var child :- Subscript(y, path[0]);
      GetPath(child, path[1..])
  }

  /** The container `y` with the element at `step` replaced (a container left as it is
      when there is nothing to replace). */
  function Replace(y: Yaml, step: Step, v: Yaml): Yaml {
    match step
    case Key(k) =>
      (match y
       case YMap(f) => YMap(f[k := v])
       case _ => y)
    case Index(i) =>
      (match y
       case YList(items) => if i < |items| then YList(items[i := v]) else y
       case _ => y)
  }

  /** The document after `y[p0][p1]...update(settings)`: the chain is evaluated first with
      its exceptions, then the dict at its end is merged with `settings` (new keys win),
      and only that dict changes. */
  function UpdateAt(y: Yaml, path: Path, settings: map<string, Yaml>): Result<Yaml, PyError>
    decreases |path|
  {
    if path == [] then
      (if y.YMap? then Ok(YMap(y.fields + settings)) else Err(AttributeError))
    else
      var child :- Subscript(y, path[0]);
      var updated :- UpdateAt(child, path[1..], settings);
      Ok(Replace(y, path[0], updated))
  }

  /** Neither path is a prefix of the other: they part ways somewhere. */
  predicate Diverge(p: Path, q: Path)
    decreases |p|
  {
    |p| > 0 && |q| > 0 && (p[0] != q[0] || Diverge(p[1..], q[1..]))
  }

  /** Characters of a string are copies: nothing reached through a string can be updated. */
  lemma {:induction false} StringNeverUpdated(s: string, path: Path, settings: map<string, Yaml>)
    ensures UpdateAt(YStr(s), path, settings).Err?
    decreases |path|
  {
    if path != [] {
      var c := Subscript(YStr(s), path[0]);
      if c.Ok? {
        StringNeverUpdated(c.value.s, path[1..], settings);
      }
    }
  }

  /** `.update` at the end of a chain raises exactly what the chain raises; when the chain
      succeeds it succeeds iff the value reached is a dict (AttributeError otherwise). */
  lemma {:induction false} UpdateAtOutcome(y: Yaml, path: Path, settings: map<string, Yaml>)
    ensures GetPath(y, path).Err? ==> UpdateAt(y, path, settings) == Err(GetPath(y, path).error)
    ensures GetPath(y, path).Ok? && !GetPath(y, path).value.YMap? ==>
              UpdateAt(y, path, settings) == Err(AttributeError)
    ensures GetPath(y, path).Ok? && GetPath(y, path).value.YMap? ==> UpdateAt(y, path, settings).Ok?
    decreases |path|
  {
    if path != [] {
      var c := Subscript(y, path[0]);
      if c.Ok? {
        UpdateAtOutcome(c.value, path[1..], settings);
      }
    }
  }

  /** Reading back along the updated chain finds the merged dict. */
  lemma {:induction false} UpdateThenGet(y: Yaml, path: Path, settings: map<string, Yaml>)
    requires UpdateAt(y, path, settings).Ok?
    ensures GetPath(y, path).Ok? && GetPath(y, path).value.YMap?
    ensures GetPath(UpdateAt(y, path, settings).value, path)
            == Ok(YMap(GetPath(y, path).value.fields + settings))
    decreases |path|
  {
    if path != [] {
      var c := Subscript(y, path[0]).value;
      if y.YStr? {
        StringNeverUpdated(c.s, path[1..], settings);
      }
      UpdateThenGet(c, path[1..], settings);
      var updated := UpdateAt(c, path[1..], settings).value;
      assert Subscript(Replace(y, path[0], updated), path[0]) == Ok(updated);
    }
  }

  /** Every chain that parts ways with the updated one reads what it read before. */
  lemma {:induction false} UpdateFrame(y: Yaml, path: Path, settings: map<string, Yaml>, q: Path)
    requires UpdateAt(y, path, settings).Ok?
    requires Diverge(path, q)
    ensures GetPath(UpdateAt(y, path, settings).value, q) == GetPath(y, q)
    decreases |path|
  {
    var c := Subscript(y, path[0]).value;
    if y.YStr? {
      StringNeverUpdated(c.s, path[1..], settings);
    }
    var updated := UpdateAt(c, path[1..], settings).value;
    var y' := Replace(y, path[0], updated);
    assert UpdateAt(y, path, settings).value == y';
    if path[0] == q[0] {
      assert Subscript(y', q[0]) == Ok(updated);
      UpdateFrame(c, path[1..], settings, q[1..]);
    } else {
      assert Subscript(y', q[0]) == Subscript(y, q[0]);
    }
  }

  lemma UpdateFrameEverywhere(y: Yaml, path: Path, settings: map<string, Yaml>)
    requires UpdateAt(y, path, settings).Ok?
    ensures forall q :: Diverge(path, q) ==> GetPath(UpdateAt(y, path, settings).value, q) == GetPath(y, q)
  {
    forall q | Diverge(path, q) ensures GetPath(UpdateAt(y, path, settings).value, q) == GetPath(y, q) {
      UpdateFrame(y, path, settings, q);
    }
  }
}
