/** Index-based editing of ordered lists, as the page does it with
    `Array.prototype.filter` and `Array.prototype.map` over positions. The
    position is a JavaScript number, modelled as an unbounded integer: a
    position outside the list matches no element. */
module Lists {

  /** `s.filter((_, i) => i !== index)`: keep every element whose position
      differs from `index`, in order. */
  function RemoveAt<T>(s: seq<T>, index: int): seq<T>
  {
    if s == [] then []
    else RemoveAt(s[..|s| - 1], index) + (if |s| - 1 != index then [s[|s| - 1]] else [])
  }

  /** `s.map((x, i) => i === index ? f(x) : x)`: apply `f` to the element at
      position `index` and keep the others. */
  function UpdateAt<T>(s: seq<T>, index: int, f: T -> T): (r: seq<T>)
    ensures |r| == |s|
    ensures forall i :: 0 <= i < |s| ==> r[i] == if i == index then f(s[i]) else s[i]
  {
    seq(|s|, i requires 0 <= i < |s| => if i == index then f(s[i]) else s[i])
  }

  /** Removing at a position inside the list drops exactly that element and
      keeps the rest in order; at a position outside it, nothing changes. */
  lemma {:induction false} RemoveAtSlices<T>(s: seq<T>, index: int)
    ensures 0 <= index < |s| ==> RemoveAt(s, index) == s[..index] + s[index + 1..]
    ensures !(0 <= index < |s|) ==> RemoveAt(s, index) == s
    decreases |s|
  {
    if s != [] {
      var init, last := s[..|s| - 1], s[|s| - 1];
      RemoveAtSlices(init, index);
      assert init + [last] == s;
      if 0 <= index < |init| {
        assert init[..index] == s[..index];
        assert init[index + 1..] + [last] == s[index + 1..];
      } else if index == |init| {
        assert s[..index] == init;
        assert s[index + 1..] == [];
      }
    }
  }

  /** The length after a removal: one less for a position inside the list,
      unchanged otherwise. */
  lemma RemoveAtLength<T>(s: seq<T>, index: int)
    ensures |RemoveAt(s, index)| == if 0 <= index < |s| then |s| - 1 else |s|
  {
    RemoveAtSlices(s, index);
  }

  /** Element by element: the elements before the removed position stay put
      and the ones after it move down by one. */
  lemma RemoveAtIndex<T>(s: seq<T>, index: int, i: int)
    requires 0 <= index < |s| && 0 <= i < |s| - 1
    ensures |RemoveAt(s, index)| == |s| - 1
    ensures RemoveAt(s, index)[i] == if i < index then s[i] else s[i + 1]
  {
    RemoveAtSlices(s, index);
  }
}

/** The page's editors for the environment and directory lists. Each one
    replaces one list of the configuration and leaves every other field as
    it was. */
module Edits {
  import opened Config
  import opened Lists

  /** Which field of an environment entry `updateEnvVar` sets. */
  datatype EnvField = Key | Value

  /** Which field of a directory rule `updateDirectory` sets. */
  datatype DirField = Inside | Outside | Options

  /** `{ ...env, [field]: value }` */
  function SetEnvField(e: EnvVar, field: EnvField, value: string): (r: EnvVar)
    ensures field == Key ==> r.key == value && r.value == e.value
    ensures field == Value ==> r.value == value && r.key == e.key
  {
    match field
    case Key => e.(key := value)
    case Value => e.(value := value)
  }

  /** `{ ...dir, [field]: value }` */
  function SetDirField(d: Directory, field: DirField, value: string): (r: Directory)
    ensures field == Inside ==> r == Directory(value, d.outside, d.options)
    ensures field == Outside ==> r == Directory(d.inside, value, d.options)
    ensures field == Options ==> r == Directory(d.inside, d.outside, value)
  {
    match field
    case Inside => d.(inside := value)
    case Outside => d.(outside := value)
    case Options => d.(options := value)
  }

  /** `addEnvVar`: a new entry with empty name and value at the end. */
  function AddEnvVar(c: IsolateConfig): (r: IsolateConfig)
    ensures |r.envVars| == |c.envVars| + 1
    ensures r.envVars[..|c.envVars|] == c.envVars
    ensures r.envVars[|c.envVars|] == EnvVar("", "")
    ensures r.(envVars := c.envVars) == c
  {
    c.(envVars := c.envVars + [EnvVar("", "")])
  }

  /** `removeEnvVar(index)` */
  function RemoveEnvVar(c: IsolateConfig, index: int): (r: IsolateConfig)
    ensures 0 <= index < |c.envVars| ==> r.envVars == c.envVars[..index] + c.envVars[index + 1..]
    ensures !(0 <= index < |c.envVars|) ==> r.envVars == c.envVars
    ensures r.(envVars := c.envVars) == c
  {
    RemoveAtSlices(c.envVars, index);
    c.(envVars := RemoveAt(c.envVars, index))
  }

  /** `updateEnvVar(index, field, value)` */
  function UpdateEnvVar(c: IsolateConfig, index: int, field: EnvField, value: string): (r: IsolateConfig)
    ensures |r.envVars| == |c.envVars|
    ensures forall i :: 0 <= i < |c.envVars| && i != index ==> r.envVars[i] == c.envVars[i]
    ensures 0 <= index < |c.envVars| ==> r.envVars[index] == SetEnvField(c.envVars[index], field, value)
    ensures r.(envVars := c.envVars) == c
  {
    c.(envVars := UpdateAt(c.envVars, index, e => SetEnvField(e, field, value)))
  }

  /** `addDirectory`: a new rule with empty paths and options at the end. */
  function AddDirectory(c: IsolateConfig): (r: IsolateConfig)
    ensures |r.directories| == |c.directories| + 1
    ensures r.directories[..|c.directories|] == c.directories
    ensures r.directories[|c.directories|] == Directory("", "", "")
    ensures r.(directories := c.directories) == c
  {
    c.(directories := c.directories + [Directory("", "", "")])
  }

  /** `removeDirectory(index)` */
  function RemoveDirectory(c: IsolateConfig, index: int): (r: IsolateConfig)
    ensures 0 <= index < |c.directories| ==> r.directories == c.directories[..index] + c.directories[index + 1..]
    ensures !(0 <= index < |c.directories|) ==> r.directories == c.directories
    ensures r.(directories := c.directories) == c
  {
    RemoveAtSlices(c.directories, index);
    c.(directories := RemoveAt(c.directories, index))
  }

  /** `updateDirectory(index, field, value)` */
  function UpdateDirectory(c: IsolateConfig, index: int, field: DirField, value: string): (r: IsolateConfig)
    ensures |r.directories| == |c.directories|
    ensures forall i :: 0 <= i < |c.directories| && i != index ==> r.directories[i] == c.directories[i]
    ensures 0 <= index < |c.directories| ==> r.directories[index] == SetDirField(c.directories[index], field, value)
    ensures r.(directories := c.directories) == c
  {
    c.(directories := UpdateAt(c.directories, index, d => SetDirField(d, field, value)))
  }

  /** Adding and then removing the new last entry gives back the list. */
  lemma AddThenRemoveEnvVar(c: IsolateConfig)
    ensures RemoveEnvVar(AddEnvVar(c), |c.envVars|) == c
  {
    var a := AddEnvVar(c);
    assert a.envVars[..|c.envVars|] + a.envVars[|c.envVars| + 1..] == c.envVars;
  }

  lemma AddThenRemoveDirectory(c: IsolateConfig)
    ensures RemoveDirectory(AddDirectory(c), |c.directories|) == c
  {
    var a := AddDirectory(c);
    assert a.directories[..|c.directories|] + a.directories[|c.directories| + 1..] == c.directories;
  }
}
