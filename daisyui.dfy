/** `Picowind\Supports\DaisyUI`: the `features.daisyui` flag is exposed to
    templates, and when it is on the `views/daisyui` directory is searched
    before every other Timber location. */
module DaisyUi {
  import opened Php
  import opened Env

  /** `Config::get('features.daisyui', false)`: the configured value, or
      `false` when the key is not set. */
  function DaisyUiFlag(config: Option<Value>): Value {
    if config.Some? then config.value else Bool(false)
  }

  /** `add_to_context`, the `timber/context` filter. */
  function AddToContext(context: Context, config: Option<Value>): (r: Context)
    ensures "daisyui_enabled" in r && r["daisyui_enabled"] == DaisyUiFlag(config)
    ensures config.None? ==> r["daisyui_enabled"] == Bool(false)
    ensures forall k :: k != "daisyui_enabled" ==> (k in r <==> k in context) && (k in context ==> r[k] == context[k])
  {
    context["daisyui_enabled":= DaisyUiFlag(config)]
  }

  /** A key of the Timber locations array: a position or a namespace. */
  datatype LocationKey = Index(n: nat) | Named(name: string)

  /** The locations array, in its order: each key with its directories. */
  type Locations = seq<(LocationKey, seq<string>)>

  /** How `array_unshift` renumbers what follows the new element: positions
      are numbered again from `next`, in order; namespaces keep their key. */
  function Renumber(locations: Locations, next: nat): (r: Locations)
    ensures |r| == |locations|
    decreases |locations|
  {
    if locations == [] then []
    else
      var (key, dirs) := locations[0];
      if key.Index? then [(Index(next), dirs)] + Renumber(locations[1..], next + 1)
      else [(key, dirs)] + Renumber(locations[1..], next)
  }

  /** Renumbering keeps every entry's directories and namespace, in order,
      and gives the positional entries the numbers `next`, `next + 1`, ... */
  lemma {:induction false} RenumberKeeps(locations: Locations, next: nat)
    ensures forall i :: 0 <= i < |locations| ==> Renumber(locations, next)[i].1 == locations[i].1
    ensures forall i :: 0 <= i < |locations| ==>
      (Renumber(locations, next)[i].0.Named? <==> locations[i].0.Named?)
      && (locations[i].0.Named? ==> Renumber(locations, next)[i].0 == locations[i].0)
    ensures forall i :: 0 <= i < |locations| && locations[i].0.Index? ==>
      Renumber(locations, next)[i].0 == Index(next + Positional(locations[..i]))
    decreases |locations|
  {
    if locations != [] {
      var (key, _) := locations[0];
      var rest := locations[1..];
      var after := if key.Index? then next + 1 else next;
      RenumberKeeps(rest, after);
      forall i | 0 < i < |locations| ensures Positional(locations[..i]) == Positional(locations[..1]) + Positional(rest[..i - 1]) {
        assert locations[..i] == locations[..1] + rest[..i - 1];
        PositionalAppend(locations[..1], rest[..i - 1]);
      }
      assert Positional(locations[..1]) == (if key.Index? then 1 else 0) by {
        assert locations[..1][1..] == [];
      }
    }
  }

  /** The number of positional entries. */
  function Positional(locations: Locations): nat
    decreases |locations|
  {
    if locations == [] then 0 else (if locations[0].0.Index? then 1 else 0) + Positional(locations[1..])
  }

  lemma {:induction false} PositionalAppend(a: Locations, b: Locations)
    ensures Positional(a + b) == Positional(a) + Positional(b)
    decreases |a|
  {
    if a == [] {
      assert a + b == b;
    } else {
      PositionalAppend(a[1..], b);
      assert (a + b)[1..] == a[1..] + b;
    }
  }

  /** `add_daisyui_locations`, the `timber/locations` filter: unchanged when
      the flag is off; otherwise a one-directory entry for `views/daisyui`
      under the parent theme is put in front, and the old entries follow,
      renumbered. */
  function AddDaisyUiLocations(locations: Locations, config: Option<Value>, templateDir: string): (r: Locations)
    ensures !ValueTruthy(DaisyUiFlag(config)) ==> r == locations
    ensures ValueTruthy(DaisyUiFlag(config)) ==>
      |r| == |locations| + 1 && r[0] == (Index(0), [templateDir + "/views/daisyui"]) && r[1..] == Renumber(locations, 1)
  {
    if !ValueTruthy(DaisyUiFlag(config)) then locations
    else [(Index(0), [templateDir + "/views/daisyui"])] + Renumber(locations, 1)
  }

  /** With the flag on, the DaisyUI directory is searched first and then
      every old location, in the old order, under the same namespaces. */
  lemma DaisyUiFirst(locations: Locations, config: Option<Value>, templateDir: string)
    requires ValueTruthy(DaisyUiFlag(config))
    ensures var r := AddDaisyUiLocations(locations, config, templateDir);
      |r| == |locations| + 1 && r[0].1 == [templateDir + "/views/daisyui"]
      && (forall i :: 0 <= i < |locations| ==> r[i + 1].1 == locations[i].1)
      && (forall i :: 0 <= i < |locations| && locations[i].0.Named? ==> r[i + 1].0 == locations[i].0)
  {
    RenumberKeeps(locations, 1);
  }

  /** The flag left unset turns DaisyUI off. */
  lemma DaisyUiOffByDefault(locations: Locations, templateDir: string)
    ensures AddDaisyUiLocations(locations, None, templateDir) == locations
  {
  }
}
