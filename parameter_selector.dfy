/**
 * The story-parameter chooser: a list of parameters, each with a list of
 * options, and the map from parameter id to the selected option id. The map
 * starts at the first option of every parameter that has one; clicking an
 * option records it and forwards the same pair to the owner's `onChange`.
 */
module ParameterSelector {

  /** One choosable value of a parameter. */
  datatype ParameterOption = ParameterOption(id: string, labelText: string)

  /** A parameter with its options, in display order. */
  datatype Parameter = Parameter(id: string, name: string, options: seq<ParameterOption>)

  /**
   * The map the `forEach` over `parameters` builds: every parameter with at
   * least one option sends its id to its first option's id; a later parameter
   * with the same id overwrites an earlier one.
   */
  function FirstOptionMap(ps: seq<Parameter>): map<string, string>
    decreases |ps|
  {
    if ps == [] then map[]
    else
      var m := FirstOptionMap(ps[..|ps| - 1]);
      var p := ps[|ps| - 1];
      if |p.options| > 0 then m[p.id := p.options[0].id] else m
  }

  /** Ids of the parameters are pairwise distinct. */
  predicate DistinctIds(ps: seq<Parameter>)
  {
    forall i, j :: 0 <= i < j < |ps| ==> ps[i].id != ps[j].id
  }

  /** Ids of the parameters that have at least one option. */
  function IdsWithOptions(ps: seq<Parameter>): set<string>
  {
    set i | 0 <= i < |ps| && |ps[i].options| > 0 :: ps[i].id
  }

  /** The initial map has a key exactly for each parameter that has options. */
  lemma {:induction false} FirstOptionMapKeys(ps: seq<Parameter>)
    ensures FirstOptionMap(ps).Keys == IdsWithOptions(ps)
    decreases |ps|
  {
    if ps != [] {
      var init := ps[..|ps| - 1];
      FirstOptionMapKeys(init);
      var last := |ps| - 1;
      assert forall i :: 0 <= i < |init| ==> init[i] == ps[i];
      if |ps[last].options| > 0 {
        assert IdsWithOptions(ps) == IdsWithOptions(init) + {ps[last].id};
      } else {
        assert IdsWithOptions(ps) == IdsWithOptions(init);
      }
    }
  }

  /** With distinct ids, each parameter that has options is sent to its first option. */
  lemma {:induction false} FirstOptionMapValues(ps: seq<Parameter>, i: nat)
    requires DistinctIds(ps) && i < |ps| && |ps[i].options| > 0
    ensures ps[i].id in FirstOptionMap(ps)
    ensures FirstOptionMap(ps)[ps[i].id] == ps[i].options[0].id
    decreases |ps|
  {
    var last := |ps| - 1;
    if i < last {
      var init := ps[..last];
      assert DistinctIds(init) by {
        forall a, b | 0 <= a < b < |init| ensures init[a].id != init[b].id {
          assert init[a] == ps[a] && init[b] == ps[b];
        }
      }
      assert init[i] == ps[i];
      FirstOptionMapValues(init, i);
      assert ps[i].id != ps[last].id;
    }
  }

  /** The `forEach` loop that fills the initial map (also used by the generator's reset). */
  method BuildFirstOptions(ps: seq<Parameter>) returns (m: map<string, string>)
    ensures m == FirstOptionMap(ps)
  {
    m := map[];
    var i := 0;
    while i < |ps|
      invariant 0 <= i <= |ps|
      invariant m == FirstOptionMap(ps[..i])
    {
      assert ps[..i + 1][..i] == ps[..i];
      if |ps[i].options| > 0 {
        m := m[ps[i].id := ps[i].options[0].id];
      }
      i := i + 1;
    }
    assert ps[..|ps|] == ps;
  }

  /** The highlight test of an option button: `selectedOptions[param.id] === option.id`. */
  predicate IsHighlighted(selected: map<string, string>, parameterId: string, optionId: string)
  {
    parameterId in selected && selected[parameterId] == optionId
  }

  /** Option ids of one parameter are pairwise distinct. */
  predicate DistinctOptionIds(p: Parameter)
  {
    forall i, j :: 0 <= i < j < |p.options| ==> p.options[i].id != p.options[j].id
  }

  /** At most one option of a parameter is highlighted, whatever the selection. */
  lemma AtMostOneHighlighted(selected: map<string, string>, p: Parameter, i: nat, j: nat)
    requires DistinctOptionIds(p)
    requires i < |p.options| && j < |p.options|
    requires IsHighlighted(selected, p.id, p.options[i].id)
    requires IsHighlighted(selected, p.id, p.options[j].id)
    ensures i == j
  {
  }

  /**
   * Before any click, the highlighted option of a parameter with options is
   * its first one, and only that one (ids distinct).
   */
  lemma InitiallyFirstHighlighted(ps: seq<Parameter>, k: nat, i: nat)
    requires DistinctIds(ps) && k < |ps| && DistinctOptionIds(ps[k])
    requires i < |ps[k].options|
    ensures IsHighlighted(FirstOptionMap(ps), ps[k].id, ps[k].options[i].id) <==> i == 0
  {
    FirstOptionMapValues(ps, k);
    if i != 0 {
      assert ps[k].options[0].id != ps[k].options[i].id;
    }
  }

  /** The component: its parameters are fixed at mount, its selection is state. */
  class Selector {
    const parameters: seq<Parameter>
    var selectedOptions: map<string, string>

    /** Mounting runs the lazy `useState` initialiser once. */
    constructor (parameters: seq<Parameter>)
      ensures this.parameters == parameters
      ensures selectedOptions == FirstOptionMap(parameters)
    {
      this.parameters := parameters;
      var initial := BuildFirstOptions(parameters);
      selectedOptions := initial;
    }

    /**
     * `handleChange`: records the choice for this parameter only and forwards
     * the same pair to `onChange` (returned here as the call it makes).
     */
    method HandleChange(parameterId: string, optionId: string) returns (forwarded: (string, string))
      modifies this
      ensures selectedOptions == old(selectedOptions)[parameterId := optionId]
      ensures forall k :: k != parameterId ==>
        (k in selectedOptions <==> k in old(selectedOptions)) &&
        (k in selectedOptions ==> selectedOptions[k] == old(selectedOptions)[k])
      ensures IsHighlighted(selectedOptions, parameterId, optionId)
      ensures forwarded == (parameterId, optionId)
    {
      selectedOptions := selectedOptions[parameterId := optionId];
      forwarded := (parameterId, optionId);
    }
  }
}
