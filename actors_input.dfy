/** The actor picker of a provenance event in Qvain
    (`qvain/history/provenance/form/actorsInput.jsx`): the option list
    offered to the user and what selecting an option does. The actor label
    (`parseActorLabel`) and the translations are parameters. */
module ActorsInput {
  import opened Wrappers
  import opened Seqs

  /** The value of the option that opens the actor editor. */
  const CREATE_ACTOR := "create-actor"

  /** The role a provenance actor is given (`ROLE.PROVENANCE`; the constants
      module is not part of this model, so the role is kept by this name). */
  const PROVENANCE_ROLE := "provenance"

  /** An entry of `Actors.actorOptions`: its value (the actor's UI id) and
      its role codes. */
  datatype ActorOption = ActorOption(value: string, roles: seq<string>)

  /** An option of the select, `{ value, label }`, the label as `text`. */
  datatype SelectOption = SelectOption(value: string, text: string)

  /** The provenance's `associations`, when present, and its
      `actorOptions`, when present. */
  type Associations = Option<Option<seq<SelectOption>>>

  /** `((associations || {}).actorOptions || [])`: a missing associations
      object or option list selects nothing. */
  function SelectedOptions(associations: Associations): (sel: seq<SelectOption>)
    ensures associations.None? || associations.value.None? ==> sel == []
    ensures associations.Some? && associations.value.Some? ==> sel == associations.value.value
  {
    if associations.Some? && associations.value.Some? then associations.value.value else []
  }

  /** `selectedOptions.map(option => option.value)`. */
  function Values(opts: seq<SelectOption>): (ids: seq<string>)
    ensures |ids| == |opts|
    ensures forall i :: 0 <= i < |opts| ==> ids[i] == opts[i].value
  {
    Map(OptionValue, opts)
  }

  /** The value of a select option. */
  function OptionValue(o: SelectOption): string {
    o.value
  }

  /** `actorOptions.filter(option => !selectedIds.includes(option.value))`. */
  function Unselected(actors: seq<ActorOption>, selectedIds: seq<string>): (r: seq<ActorOption>)
    ensures |r| <= |actors|
    ensures forall i :: 0 <= i < |r| ==> r[i] in actors && r[i].value !in selectedIds
    ensures forall a :: a in actors && a.value !in selectedIds ==> a in r
  {
    if actors == [] then []
    else if actors[0].value in selectedIds then Unselected(actors[1..], selectedIds)
    else [actors[0]] + Unselected(actors[1..], selectedIds)
  }

  /** The filter keeps the remaining actors in their original order: it
      distributes over concatenation. */
  lemma {:induction false} UnselectedAppend(xs: seq<ActorOption>, ys: seq<ActorOption>, selectedIds: seq<string>)
    ensures Unselected(xs + ys, selectedIds) == Unselected(xs, selectedIds) + Unselected(ys, selectedIds)
  {
    if xs == [] {
      assert xs + ys == ys;
    } else {
      assert (xs + ys)[0] == xs[0];
      assert (xs + ys)[1..] == xs[1..] + ys;
      UnselectedAppend(xs[1..], ys, selectedIds);
    }
  }

  /** `` `${actorName} / ${rolesStr.join(' / ')}` ``. */
  function JoinSlash(parts: seq<string>): (s: string)
    ensures parts == [] ==> s == ""
    ensures |parts| == 1 ==> s == parts[0]
  {
    if parts == [] then ""
    else if |parts| == 1 then parts[0]
    else parts[0] + " / " + JoinSlash(parts[1..])
  }

  function RoleLabels(roles: seq<string>, roleLabel: string -> string): (labels: seq<string>)
    ensures |labels| == |roles|
    ensures forall i :: 0 <= i < |roles| ==> labels[i] == roleLabel(roles[i])
  {
    if roles == [] then [] else [roleLabel(roles[0])] + RoleLabels(roles[1..], roleLabel)
  }

  /** An actor's option label: its name (`parseActorLabel`), then the
      translated labels of its roles, all separated by `' / '`. */
  function ActorLabel(a: ActorOption, actorName: ActorOption -> string, roleLabel: string -> string): string {
    actorName(a) + " / " + JoinSlash(RoleLabels(a.roles, roleLabel))
  }

  /** Every label starts with the actor's name and the separator; an actor
      with one role reads `name / role`. */
  lemma ActorLabelShape(a: ActorOption, actorName: ActorOption -> string, roleLabel: string -> string)
    ensures actorName(a) + " / " <= ActorLabel(a, actorName, roleLabel)
    ensures |a.roles| == 1 ==> ActorLabel(a, actorName, roleLabel) == actorName(a) + " / " + roleLabel(a.roles[0])
    ensures |a.roles| == 2 ==>
      ActorLabel(a, actorName, roleLabel) == actorName(a) + " / " + roleLabel(a.roles[0]) + " / " + roleLabel(a.roles[1])
  {
    var labels := RoleLabels(a.roles, roleLabel);
    if |a.roles| == 2 {
      assert labels[1..] == [roleLabel(a.roles[1])];
    }
  }

  function Labelled(actors: seq<ActorOption>, actorName: ActorOption -> string, roleLabel: string -> string): (opts: seq<SelectOption>)
    ensures |opts| == |actors|
    ensures forall i :: 0 <= i < |actors| ==>
      opts[i] == SelectOption(actors[i].value, ActorLabel(actors[i], actorName, roleLabel))
  {
    if actors == [] then []
    else [SelectOption(actors[0].value, ActorLabel(actors[0], actorName, roleLabel))]
         + Labelled(actors[1..], actorName, roleLabel)
  }

  /** The `options` of the select: the create entry, then one option per
      actor not already selected, in the store's order. */
  function Options(actors: seq<ActorOption>, associations: Associations, createLabel: string,
                   actorName: ActorOption -> string, roleLabel: string -> string): (opts: seq<SelectOption>)
    ensures |opts| >= 1 && opts[0] == SelectOption(CREATE_ACTOR, createLabel)
    ensures |opts| == 1 + |Unselected(actors, Values(SelectedOptions(associations)))|
    ensures forall i :: 1 <= i < |opts| ==>
      opts[i].value == Unselected(actors, Values(SelectedOptions(associations)))[i - 1].value
    ensures forall i :: 1 <= i < |opts| ==>
      opts[i].text == ActorLabel(Unselected(actors, Values(SelectedOptions(associations)))[i - 1], actorName, roleLabel)
  {
    var un := Unselected(actors, Values(SelectedOptions(associations)));
    var opts := [SelectOption(CREATE_ACTOR, createLabel)] + Labelled(un, actorName, roleLabel);
    assert forall i :: 1 <= i < |opts| ==> opts[i] == Labelled(un, actorName, roleLabel)[i - 1];
    opts
  }

  /** No actor already selected is offered again, and every other actor is. */
  lemma OptionsExcludeSelected(actors: seq<ActorOption>, associations: Associations, createLabel: string,
                               actorName: ActorOption -> string, roleLabel: string -> string)
    ensures forall i :: 1 <= i < |Options(actors, associations, createLabel, actorName, roleLabel)| ==>
      Options(actors, associations, createLabel, actorName, roleLabel)[i].value !in Values(SelectedOptions(associations))
    ensures forall a :: a in actors && a.value !in Values(SelectedOptions(associations)) ==>
      exists i :: 1 <= i < |Options(actors, associations, createLabel, actorName, roleLabel)|
               && Options(actors, associations, createLabel, actorName, roleLabel)[i].value == a.value
  {
    var ids := Values(SelectedOptions(associations));
    var un := Unselected(actors, ids);
    var opts := Options(actors, associations, createLabel, actorName, roleLabel);
    forall a | a in actors && a.value !in ids
      ensures exists i :: 1 <= i < |opts| && opts[i].value == a.value
    {
      var k :| 0 <= k < |un| && un[k] == a;
      assert opts[k + 1].value == a.value;
    }
  }

  /** A missing associations object offers every actor. */
  lemma NoAssociationsOffersAll(actors: seq<ActorOption>, createLabel: string,
                                actorName: ActorOption -> string, roleLabel: string -> string)
    ensures |Options(actors, None, createLabel, actorName, roleLabel)| == 1 + |actors|
  {
    UnselectedNone(actors);
  }

  lemma {:induction false} UnselectedNone(actors: seq<ActorOption>)
    ensures Unselected(actors, []) == actors
  {
    if actors != [] {
      UnselectedNone(actors[1..]);
      assert [actors[0]] + actors[1..] == actors;
    }
  }

  /** What `changeAttribute('selectedActor', value)` stores: `null`, or the
      string passed. */
  datatype SelectedActor = Unset | Null | Named(name: string)

  /** The provenance's associations and the provenance form state, as far
      as `handleSelect` writes them. `hasAssociations` says whether the
      provenance in edit has an `associations` object; `actorIds` lists the
      ids passed to `addActorWithId`, `roles` the `(id, role)` pairs passed
      to `addRole`, and `editedActorRoles` the roles of the actor opened in
      the editor. */
  class ProvenanceForm {
    var hasAssociations: bool
    var actorIds: seq<string>
    var roles: seq<(string, string)>
    var selectedActor: SelectedActor
    var editedActorRoles: Option<seq<string>>

    constructor (hasAssociations: bool)
      ensures this.hasAssociations == hasAssociations
      ensures actorIds == [] && roles == [] && selectedActor == Unset && editedActorRoles.None?
    {
      this.hasAssociations := hasAssociations;
      actorIds := [];
      roles := [];
      selectedActor := Unset;
      editedActorRoles := None;
    }

    /** `handleSelect(selection)`. `None` is a `null` selection, whose
        `.value` throws after the create test fails; so does
        `addActorWithId` on a missing `associations` object. `thrown`
        reports either, and then nothing changed. The create branch opens
        the editor on a new actor with the provenance role (the id is added
        only when the editor saves it) and sets the selected actor to
        `null`; any other option adds the actor and its role and stores the
        literal string `'selectedActor'`. */
    method HandleSelect(selection: Option<SelectOption>) returns (thrown: bool)
      modifies this
      ensures hasAssociations == old(hasAssociations)
      ensures thrown <==> selection.None? || (selection.value.value != CREATE_ACTOR && !hasAssociations)
      ensures thrown ==>
        actorIds == old(actorIds) && roles == old(roles)
        && selectedActor == old(selectedActor) && editedActorRoles == old(editedActorRoles)
      ensures !thrown && selection.value.value == CREATE_ACTOR ==>
        editedActorRoles == Some([PROVENANCE_ROLE]) && selectedActor == Null
        && actorIds == old(actorIds) && roles == old(roles)
      ensures !thrown && selection.value.value != CREATE_ACTOR ==>
        actorIds == old(actorIds) + [selection.value.value]
        && roles == old(roles) + [(selection.value.value, PROVENANCE_ROLE)]
        && selectedActor == Named("selectedActor") && editedActorRoles == old(editedActorRoles)
    {
      if selection.Some? && selection.value.value == CREATE_ACTOR {
        editedActorRoles := Some([PROVENANCE_ROLE]);
        selectedActor := Null;
        return false;
      }
      if selection.None? || !hasAssociations {
        return true;
      }
      var id := selection.value.value;
      actorIds := actorIds + [id];
      roles := roles + [(id, PROVENANCE_ROLE)];
      selectedActor := Named("selectedActor");
      return false;
    }
  }
}
