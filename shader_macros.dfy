/**
 * The set of shader macros a render pass compiles with
 * (vox.render/shader/shader_macro_collection.h): a single key-indexed map
 * from a macro to its constant value, with enable, disable, lookup and union.
 *
 * The source keys the map by a hash of the macro; the model keys it by the
 * macro's spelling, so two distinct macros never share an entry. The
 * MacroName overloads use the enumerator's spelling in the header.
 */
module ShaderMacros {
  import opened Wrappers
  import opened MacroNames

  /** The value a flag-only enableMacro stores; only its presence is observable through contains. */
  const FlagValue: real := 1.0

  /** The map entry of a built-in macro. */
  function Key(m: MacroName): string {
    Name(m)
  }

  /** The map after storing v under name: name now holds v, every other entry is as before. */
  function Enabled(values: map<string, real>, name: string, v: real): (r: map<string, real>)
    ensures name in r && r[name] == v
    ensures forall k :: k != name ==> (k in r <==> k in values)
    ensures forall k :: k != name && k in values ==> r[k] == values[k]
  {
    values[name := v]
  }

  /** The map after removing name: name is absent, every other entry is as before. */
  function Disabled(values: map<string, real>, name: string): (r: map<string, real>)
    ensures name !in r
    ensures forall k :: k != name ==> (k in r <==> k in values)
    ensures forall k :: k != name && k in values ==> r[k] == values[k]
  {
    values - {name}
  }

  /** The constant stored under name, if the macro is enabled. */
  function ConstantIn(values: map<string, real>, name: string): (r: Option<real>)
    ensures r.Some? <==> name in values
    ensures r.Some? ==> r.value == values[name]
  {
    if name in values then Some(values[name]) else None
  }

  /**
   * The union of two collections: exactly the macros enabled in either, each
   * with a value taken from an input that enables it. The right operand's
   * value is the one kept on a shared macro.
   */
  function Union(left: map<string, real>, right: map<string, real>): (u: map<string, real>)
    ensures u.Keys == left.Keys + right.Keys
    ensures forall k :: k in u ==> (k in left && u[k] == left[k]) || (k in right && u[k] == right[k])
  {
    left + right
  }

  class ShaderMacroCollection {
    /** `_value`: one constant per enabled macro. */
    var values: map<string, real>

    /** ShaderMacroCollection(): no macro enabled. */
    constructor ()
      ensures values == map[]
    {
      values := map[];
    }

    /** contains(macro). */
    function Contains(name: string): (b: bool)
      reads this
      ensures b <==> ConstantIn(values, name).Some?
    {
      name in values
    }

    /** macroConstant(macro): the stored value, or nothing when the macro is not enabled. */
    function MacroConstant(name: string): (r: Option<real>)
      reads this
      ensures r.Some? <==> Contains(name)
      ensures r == ConstantIn(values, name)
    {
      if name in values then Some(values[name]) else None
    }

    /** enableMacro(macroName): the macro is present, as a flag. */
    method EnableMacro(name: string)
      modifies this
      ensures values == Enabled(old(values), name, FlagValue)
      ensures Contains(name)
    {
      values := values[name := FlagValue];
    }

    /** enableMacro(macroName, value): the macro is present with constant value. */
    method EnableMacroValue(name: string, v: real)
      modifies this
      ensures values == Enabled(old(values), name, v)
      ensures MacroConstant(name) == Some(v)
    {
      values := values[name := v];
    }

    /** disableMacro(macroName): the macro is absent. */
    method DisableMacro(name: string)
      modifies this
      ensures values == Disabled(old(values), name)
      ensures !Contains(name)
    {
      values := values - {name};
    }

    /** contains(MacroName). */
    function ContainsInternal(m: MacroName): (b: bool)
      reads this
      ensures b <==> Contains(Key(m))
    {
      Key(m) in values
    }

    /** macroConstant(MacroName). */
    function InternalConstant(m: MacroName): (r: Option<real>)
      reads this
      ensures r == MacroConstant(Key(m))
    {
      MacroConstant(Key(m))
    }

    /** enableMacro(MacroName). */
    method EnableInternal(m: MacroName)
      modifies this
      ensures values == Enabled(old(values), Key(m), FlagValue)
      ensures ContainsInternal(m)
    {
      EnableMacro(Key(m));
    }

    /** enableMacro(MacroName, value). */
    method EnableInternalValue(m: MacroName, v: real)
      modifies this
      ensures values == Enabled(old(values), Key(m), v)
      ensures InternalConstant(m) == Some(v)
    {
      EnableMacroValue(Key(m), v);
    }

    /** disableMacro(MacroName). */
    method DisableInternal(m: MacroName)
      modifies this
      ensures values == Disabled(old(values), Key(m))
      ensures !ContainsInternal(m)
    {
      DisableMacro(Key(m));
    }

    /**
     * unionCollection(left, right, result): result holds the macros of both
     * inputs. result may be the same object as either input.
     */
    static method UnionCollection(left: ShaderMacroCollection, right: ShaderMacroCollection, result: ShaderMacroCollection)
      modifies result
      ensures result.values == Union(old(left.values), old(right.values))
    {
      result.values := left.values + right.values;
    }
  }

  // ---------------------------------------------------------------------------
  // Properties

  /** Enabling then disabling a macro is the same as disabling it. */
  lemma DisableAfterEnable(values: map<string, real>, name: string, v: real)
    ensures Disabled(Enabled(values, name, v), name) == Disabled(values, name)
  {
    var a := Disabled(Enabled(values, name, v), name);
    var b := Disabled(values, name);
    assert a.Keys == b.Keys;
  }

  /** Re-enabling replaces the value: only the last value given is kept. */
  lemma ReenableReplaces(values: map<string, real>, name: string, v: real, w: real)
    ensures Enabled(Enabled(values, name, v), name, w) == Enabled(values, name, w)
    ensures ConstantIn(Enabled(Enabled(values, name, v), name, w), name) == Some(w)
  {
    var a := Enabled(Enabled(values, name, v), name, w);
    var b := Enabled(values, name, w);
    assert a.Keys == b.Keys;
  }

  /** Disabling is idempotent, and disabling an absent macro changes nothing. */
  lemma DisableIdempotent(values: map<string, real>, name: string)
    ensures Disabled(Disabled(values, name), name) == Disabled(values, name)
    ensures name !in values ==> Disabled(values, name) == values
  {
    var a := Disabled(Disabled(values, name), name);
    var b := Disabled(values, name);
    assert a.Keys == b.Keys;
    if name !in values {
      assert b.Keys == values.Keys;
    }
  }

  /** Enabling two different macros gives the same collection in either order. */
  lemma DistinctEnablesCommute(values: map<string, real>, a: string, b: string, v: real, w: real)
    requires a != b
    ensures Enabled(Enabled(values, a, v), b, w) == Enabled(Enabled(values, b, w), a, v)
  {
    var p := Enabled(Enabled(values, a, v), b, w);
    var q := Enabled(Enabled(values, b, w), a, v);
    assert p.Keys == q.Keys;
  }

  /** Enabling one macro and disabling a different one gives the same collection in either order. */
  lemma EnableDisableCommute(values: map<string, real>, a: string, b: string, v: real)
    requires a != b
    ensures Disabled(Enabled(values, a, v), b) == Enabled(Disabled(values, b), a, v)
  {
    var r := Disabled(Enabled(values, a, v), b);
    var s := Enabled(Disabled(values, b), a, v);
    assert r.Keys == s.Keys;
  }

  /** A macro is in the union iff one of the inputs enables it. */
  lemma UnionContains(left: map<string, real>, right: map<string, real>, name: string)
    ensures ConstantIn(Union(left, right), name).Some? <==> ConstantIn(left, name).Some? || ConstantIn(right, name).Some?
  {
  }

  /** The union with an empty collection, and of a collection with itself, is that collection. */
  lemma UnionIdentities(left: map<string, real>)
    ensures Union(left, map[]) == left && Union(map[], left) == left
    ensures Union(left, left) == left
  {
    assert Union(left, map[]).Keys == left.Keys;
    assert Union(map[], left).Keys == left.Keys;
    assert Union(left, left).Keys == left.Keys;
  }

  /** Unions of inputs enabling disjoint macros do not depend on the operand order. */
  lemma UnionDisjointCommutes(left: map<string, real>, right: map<string, real>)
    requires left.Keys !! right.Keys
    ensures Union(left, right) == Union(right, left)
  {
    var a := Union(left, right);
    var b := Union(right, left);
    assert a.Keys == b.Keys;
    forall k | k in a
      ensures a[k] == b[k]
    {
      if k in left {
        assert k !in right;
      }
    }
  }
}
