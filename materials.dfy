/**
 * `Material`: the stiffness c, photoelastic p and acoustic-loss eta tensors of a material,
 * with the flag that says whether all of their 108 entries were given, and the two
 * operations that change them: loading from a file's key-value parameters and rotating
 * the crystal axes in place.
 *
 * A file's parameters are a map from key to number; the metadata keys are only checked
 * for presence. An entry the file never assigns is held as 0.0.
 */
module Materials {
  import opened Wrappers
  import opened Voigt
  import opened Tensors
  import opened Rotation
  import opened Rotate
  import opened Cubic
  import opened Invariance
  import opened ZRotation
  import opened ClosedForm

  /** The three tensors of a material. */
  datatype Name = C | P | Eta

  /** The metadata fields a file must have: its name, the chemical, the provenance, n and the density s. */
  datatype Meta = FileName | Chemical | Author | Date | Institution | Doi | RefractiveIndex | Density

  /**
   * A key of a material file: a metadata field, or the entry [v][w] of a tensor, spelled
   * with the tensor's name and the 1-based row and column, as "c_16" for [0][5] of c.
   */
  datatype Key = Field(meta: Meta) | Entry(name: Name, v: VoigtIndex, w: VoigtIndex)

  /** A material file's parameters by key. */
  type Params = map<Key, real>

  /** Loading stops at the first missing base key, naming it. */
  datatype LoadError = MissingKey(key: Key)

  /** The value of an entry no key has assigned. */
  const Unassigned: real := 0.0

  /** The name of a tensor in its keys. */
  function NameSpelling(name: Name): string {
    match name
    case C => "c"
    case P => "p"
    case Eta => "eta"
  }

  /** The spelling of a metadata field in the file. */
  function MetaSpelling(meta: Meta): string {
    match meta
    case FileName => "file_name"
    case Chemical => "chemical"
    case Author => "author"
    case Date => "date"
    case Institution => "institution"
    case Doi => "doi"
    case RefractiveIndex => "n"
    case Density => "s"
  }

  /** The spelling of a key in the file. */
  function Spelling(key: Key): string {
    match key
    case Field(meta) => MetaSpelling(meta)
    case Entry(name, v, w) => NameSpelling(name) + "_" + ["123456"[v], "123456"[w]]
  }

  /** A key's spelling ends in a digit exactly when the key is a tensor entry. */
  lemma LastCharacter(key: Key)
    ensures var s := Spelling(key); |s| > 0 && (s[|s| - 1] in "123456" <==> key.Entry?)
  {
  }

  /** No two keys are spelled alike. */
  lemma SpellingInjective(k1: Key, k2: Key)
    requires Spelling(k1) == Spelling(k2)
    ensures k1 == k2
  {
    var s1, s2 := Spelling(k1), Spelling(k2);
    LastCharacter(k1);
    LastCharacter(k2);
    if k1.Entry? && k2.Entry? {
      var n1, n2 := NameSpelling(k1.name), NameSpelling(k2.name);
      assert s1[|s1| - 1] == s2[|s2| - 1] && s1[|s1| - 2] == s2[|s2| - 2];
      assert |n1| == |n2|;
      assert n1 == s1[..|n1|] && n2 == s2[..|n2|];
    }
  }

  /** The three tensors' names, in the order the file is read. */
  const Names: seq<Name> := [C, P, Eta]

  /** The metadata keys the file must have, in the order they are read. */
  const Metadata: seq<Key> :=
    [Field(FileName), Field(Chemical), Field(Author), Field(Date), Field(Institution), Field(Doi), Field(RefractiveIndex), Field(Density)]

  /** The keys the file must have, in the order they are read: metadata, then _11, _12, _44 of c, p, eta. */
  const BaseKeys: seq<Key> := Metadata +
    [Entry(C, 0, 0), Entry(C, 0, 1), Entry(C, 3, 3),
     Entry(P, 0, 0), Entry(P, 0, 1), Entry(P, 3, 3),
     Entry(Eta, 0, 0), Entry(Eta, 0, 1), Entry(Eta, 3, 3)]

  /** The n-th of the 108 full-tensor keys: c, then p, then eta, each row by row. */
  function FullKey(n: nat): Key
    requires n < 108
  {
    Entry(Names[n / 36], (n % 36) / 6, n % 6)
  }

  /** The full keys begin at "c_11", pass from "c_66" to "p_11", and end at "eta_66". */
  lemma FullKeySpelling()
    ensures Spelling(FullKey(0)) == "c_11" && Spelling(FullKey(35)) == "c_66"
    ensures Spelling(FullKey(36)) == "p_11" && Spelling(FullKey(107)) == "eta_66"
  {
  }

  /** The 108 full-tensor keys in the order they are read. */
  function FullKeys(): (keys: seq<Key>)
    ensures |keys| == 108 && forall n :: 0 <= n < 108 ==> keys[n] == FullKey(n)
    ensures forall key <- keys :: key.Entry?
  {
    seq(108, n requires 0 <= n < 108 => FullKey(n))
  }

  /** The position of the first key the parameters lack, or |keys| when none is missing. */
  function FirstMissing(keys: seq<Key>, params: Params): (k: nat)
    ensures k <= |keys|
    ensures forall i :: 0 <= i < k ==> keys[i] in params
    ensures k < |keys| ==> keys[k] !in params
  {
    if keys == [] || keys[0] !in params then 0 else 1 + FirstMissing(keys[1..], params)
  }

  /** The file gives every entry of the three tensors: the material is anisotropic. */
  predicate AllFullKeys(params: Params) {
    forall n :: 0 <= n < 108 ==> FullKey(n) in params
  }

  /** The first missing key is at k exactly when the keys before k are present and the one at k is not. */
  lemma FirstMissingUnique(keys: seq<Key>, params: Params, k: nat)
    requires k <= |keys| && forall i :: 0 <= i < k ==> keys[i] in params
    requires k < |keys| ==> keys[k] !in params
    ensures FirstMissing(keys, params) == k
  {
  }

  /** All 108 keys are present exactly when none is missing. */
  lemma AllFullKeysFirstMissing(params: Params)
    ensures AllFullKeys(params) <==> FirstMissing(FullKeys(), params) == 108
  {
  }

  /** The tensor `name` after the base keys: _11, _12 and _44 from the file, every other entry unassigned. */
  function BaseTensor(name: Name, params: Params): (t: Tensor)
    ensures forall v: VoigtIndex, w: VoigtIndex ::
      (t[v][w] == if ((v == 0 && w < 2) || (v == 3 && w == 3)) && Entry(name, v, w) in params then params[Entry(name, v, w)] else Unassigned)
  {
    seq(6, v requires 0 <= v < 6 => seq(6, w requires 0 <= w < 6 =>
      if ((v == 0 && w < 2) || (v == 3 && w == 3)) && Entry(name, v, w) in params then params[Entry(name, v, w)] else Unassigned))
  }

  /** The three tensors of a material together. */
  datatype Fields = Fields(c: Tensor, p: Tensor, eta: Tensor)

  /** The tensor of a name. */
  function Get(f: Fields, name: Name): Tensor {
    match name
    case C => f.c
    case P => f.p
    case Eta => f.eta
  }

  /** The fields with the entry a key names set to x. */
  function Store(f: Fields, key: Key, x: real): (g: Fields)
    requires key.Entry?
    ensures forall name, v: VoigtIndex, w: VoigtIndex ::
      Get(g, name)[v][w] == if Entry(name, v, w) == key then x else Get(f, name)[v][w]
  {
    match key.name
    case C => f.(c := SetEntry(f.c, key.v, key.w, x))
    case P => f.(p := SetEntry(f.p, key.v, key.w, x))
    case Eta => f.(eta := SetEntry(f.eta, key.v, key.w, x))
  }

  /** Assign the keys in order, each from the parameters, up to the first one they lack. */
  function Fill(f: Fields, keys: seq<Key>, params: Params): Fields
    requires forall key <- keys :: key.Entry?
    decreases |keys|
  {
    if keys == [] || keys[0] !in params then f
    else Fill(Store(f, keys[0], params[keys[0]]), keys[1..], params)
  }

  /**
   * After the fill, an entry holds the file's value exactly when its key comes before the
   * first missing key; every other entry is as it was.
   */
  lemma {:induction false} FillAt(f: Fields, keys: seq<Key>, params: Params, name: Name, v: VoigtIndex, w: VoigtIndex)
    requires forall key <- keys :: key.Entry?
    decreases |keys|
    ensures var k := FirstMissing(keys, params);
      Get(Fill(f, keys, params), name)[v][w]
      == if Entry(name, v, w) in keys[..k] then params[Entry(name, v, w)] else Get(f, name)[v][w]
  {
    if keys != [] && keys[0] in params {
      var g := Store(f, keys[0], params[keys[0]]);
      FillAt(g, keys[1..], params, name, v, w);
      var k, key := FirstMissing(keys[1..], params), Entry(name, v, w);
      assert FirstMissing(keys, params) == k + 1;
      assert keys[..k + 1][0] == keys[0] && keys[..k + 1][1..] == keys[1..][..k];
      if key == keys[0] {
        assert key in keys[..k + 1];
      } else {
        assert key in keys[..k + 1] <==> key in keys[1..][..k];
      }
    }
  }

  /** The full key at 36 which + 6v + w names entry [v][w] of tensor `which`, and no other does. */
  lemma FullKeyPosition(which: nat, v: VoigtIndex, w: VoigtIndex, n: nat)
    requires which < 3 && n < 108
    ensures FullKey(n) == Entry(Names[which], v, w) <==> n == 36 * which + 6 * v + w
  {
    if n == 36 * which + 6 * v + w {
      assert n / 36 == which && n % 36 == 6 * v + w;
    }
  }

  /** With the full keys, the entry [v][w] of tensor `which` is assigned when the first missing key comes after it. */
  lemma FullKeysAt(which: nat, v: VoigtIndex, w: VoigtIndex, k: nat)
    requires which < 3 && k <= 108
    ensures Entry(Names[which], v, w) in FullKeys()[..k] <==> 36 * which + 6 * v + w < k
  {
    var keys := FullKeys();
    if Entry(Names[which], v, w) in keys[..k] {
      var n :| 0 <= n < k && keys[n] == Entry(Names[which], v, w);
      FullKeyPosition(which, v, w, n);
    }
    if 36 * which + 6 * v + w < k {
      FullKeyPosition(which, v, w, 36 * which + 6 * v + w);
      assert keys[..k][36 * which + 6 * v + w] == Entry(Names[which], v, w);
    }
  }

  /** The three tensors after the base keys. */
  function BaseFields(params: Params): (f: Fields)
    ensures forall name :: Get(f, name) == BaseTensor(name, params)
  {
    Fields(BaseTensor(C, params), BaseTensor(P, params), BaseTensor(Eta, params))
  }

  /**
   * After loading, the entry [v][w] of tensor `which` holds the file's value exactly when
   * its full key comes before the first missing one, and its base value otherwise.
   */
  lemma LoadedEntry(params: Params, which: nat, v: VoigtIndex, w: VoigtIndex)
    requires which < 3
    ensures var k, t := FirstMissing(FullKeys(), params), Get(Fill(BaseFields(params), FullKeys(), params), Names[which]);
      && (36 * which + 6 * v + w < k ==> Entry(Names[which], v, w) in params && t[v][w] == params[Entry(Names[which], v, w)])
      && (36 * which + 6 * v + w >= k ==> t[v][w] == BaseTensor(Names[which], params)[v][w])
  {
    FillAt(BaseFields(params), FullKeys(), params, Names[which], v, w);
    FullKeysAt(which, v, w, FirstMissing(FullKeys(), params));
  }

  /** When the file gives all 108 entries, every entry of every tensor is the file's. */
  lemma AnisotropicEntries(params: Params, name: Name, v: VoigtIndex, w: VoigtIndex)
    requires AllFullKeys(params)
    ensures Entry(name, v, w) in params
    ensures Get(Fill(BaseFields(params), FullKeys(), params), name)[v][w] == params[Entry(name, v, w)]
  {
    var which := if name == C then 0 else if name == P then 1 else 2;
    assert Names[which] == name;
    AllFullKeysFirstMissing(params);
    LoadedEntry(params, which, v, w);
  }

  class Material {
    var c: Tensor
    var p: Tensor
    var eta: Tensor
    var anisotropic: bool

    /** The material after the base keys are read. */
    constructor FromBase(params: Params)
      requires forall key <- BaseKeys :: key in params
      ensures c == BaseTensor(C, params) && p == BaseTensor(P, params) && eta == BaseTensor(Eta, params)
      ensures !anisotropic
    {
      c := BaseTensor(C, params);
      p := BaseTensor(P, params);
      eta := BaseTensor(Eta, params);
      anisotropic := false;
    }

    /**
     * The full-tensor block: read the 108 keys in order, assigning each entry, until the
     * first missing key; the material is anisotropic exactly when none is missing.
     */
    method LoadFull(params: Params)
      modifies this
      ensures Fields(c, p, eta) == Fill(Fields(old(c), old(p), old(eta)), FullKeys(), params)
      ensures anisotropic <==> AllFullKeys(params)
    {
      var keys := FullKeys();
      ghost var goal := Fill(Fields(c, p, eta), keys, params);
      var n := 0;
      while n < |keys| && keys[n] in params
        invariant 0 <= n <= |keys| && forall k :: 0 <= k < n ==> keys[k] in params
        invariant Fill(Fields(c, p, eta), keys[n..], params) == goal
        decreases |keys| - n
      {
        var g := Store(Fields(c, p, eta), keys[n], params[keys[n]]);
        assert keys[n..][1..] == keys[n + 1..];
        c, p, eta := g.c, g.p, g.eta;
        n := n + 1;
      }
      FirstMissingUnique(keys, params, n);
      AllFullKeysFirstMissing(params);
      anisotropic := n == |keys|;
    }

    /**
     * `rotate_axis`: an anisotropic material is refused before anything changes. Otherwise c
     * is expanded from its _11, _12, _44 and rotated. The rotation fails on an unknown axis
     * label, leaving c expanded and p, eta untouched. On success the closed form is written
     * over the rotated c, whatever the axis, and then p and eta are expanded and rotated in
     * turn. The flag is not changed.
     */
    method RotateAxis(theta: Angle, axis: string) returns (outcome: Outcome<RotationError>)
      modifies this
      ensures anisotropic == old(anisotropic)
      ensures old(anisotropic) ==> outcome == Fail(NotImplemented) && c == old(c) && p == old(p) && eta == old(eta)
      ensures !old(anisotropic) && !IsAxisLabel(axis) ==>
        outcome == Fail(InvalidAxis) && c == Expand(old(c)) && p == old(p) && eta == old(eta)
      ensures !old(anisotropic) && IsAxisLabel(axis) ==>
        && outcome == Pass
        && c == Override(RotateSpec(Expand(old(c)), axis, theta).value, old(c)[0][0], old(c)[0][1], old(c)[3][3], theta)
        && Success(p) == RotateSpec(Expand(old(p)), axis, theta)
        && Success(eta) == RotateSpec(Expand(old(eta)), axis, theta)
    {
      if anisotropic {
        return Fail(NotImplemented);
      }
      var a, b, d := c[0][0], c[0][1], c[3][3];
      c := Expand(c);
      var rc := RotateTensor(c, theta, axis);
      if rc.Failure? {
        return Fail(rc.error);
      }
      c := Override(rc.value, a, b, d, theta);
      p := Expand(p);
      var rp := RotateTensor(p, theta, axis);
      p := rp.value;
      eta := Expand(eta);
      var re := RotateTensor(eta, theta, axis);
      eta := re.value;
      return Pass;
    }
  }

  /**
   * After a rotation about z the stiffness is the kernel's rotation of the expanded tensor
   * with its four couplings negated, and equal to it everywhere else.
   */
  lemma RotatedStiffnessZ(old_c: Tensor, theta: Angle)
    requires OnUnitCircle(theta)
    ensures var a, b, d := old_c[0][0], old_c[0][1], old_c[3][3];
      var k := RotateSpec(Expand(old_c), ZAxis, theta).value;
      forall v: VoigtIndex, w: VoigtIndex ::
        Override(k, a, b, d, theta)[v][w] == if IsCoupling(v, w) then -k[v][w] else k[v][w]
  {
    var a, b, d := old_c[0][0], old_c[0][1], old_c[3][3];
    ZMatrixIs(theta);
    OverrideZ(a, b, d, theta);
  }

  /**
   * For an isotropic stiffness (_11 - _12 = 2 _44) the rotation leaves c as its expansion,
   * about every axis: neither discrepancy of the closed form shows.
   */
  lemma RotatedStiffnessIsotropic(old_c: Tensor, axis: string, theta: Angle)
    requires IsAxisLabel(axis) && OnUnitCircle(theta) && old_c[0][0] - old_c[0][1] == 2.0 * old_c[3][3]
    ensures var a, b, d := old_c[0][0], old_c[0][1], old_c[3][3];
      Override(RotateSpec(Expand(old_c), axis, theta).value, a, b, d, theta) == Expand(old_c)
  {
    var a, b, d := old_c[0][0], old_c[0][1], old_c[3][3];
    AxisOrthonormal(axis, theta);
    OverrideIsotropic(a, b, d, AxisMatrix(axis, theta).value, theta);
  }

  /**
   * Loading a material file: the base keys must all be there, and the first one missing is
   * the error; then the full-tensor block decides the anisotropic flag.
   */
  method Load(params: Params) returns (r: Result<Material, LoadError>)
    ensures var k := FirstMissing(BaseKeys, params);
      k < |BaseKeys| ==> r == Failure(MissingKey(BaseKeys[k]))
    ensures FirstMissing(BaseKeys, params) == |BaseKeys| ==>
      && r.Success? && fresh(r.value)
      && (r.value.anisotropic <==> AllFullKeys(params))
      && Fields(r.value.c, r.value.p, r.value.eta) == Fill(BaseFields(params), FullKeys(), params)
  {
    var k := FirstMissing(BaseKeys, params);
    if k < |BaseKeys| {
      return Failure(MissingKey(BaseKeys[k]));
    }
    var m := new Material.FromBase(params);
    m.LoadFull(params);
    return Success(m);
  }
}
