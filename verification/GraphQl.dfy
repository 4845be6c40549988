/**
 Plain-field GraphQL selections and their execution: field collection (section 6.3.2 of the
 GraphQL specification, October 2021) over resolvers about which nothing is known.
 */
module GraphQl {
  import opened Sequences

  /** Arguments by name; they are unordered (section 2.6) and their names unique (section 5.4.2). */
  type Arguments = map<string, string>

  /** skipIf and includeIf are the literal conditions of the skip and include directives. */
  datatype Field = Field(
    alias: Option<string>, name: string, arguments: Arguments, skipIf: bool, includeIf: bool, selections: seq<Field>)

  datatype Json = Null | Scalar(text: string) | Array(items: seq<Json>) | Object(members: Members)

  /** A JSON object, its members in order. */
  type Members = seq<(string, Json)>

  /** What a resolver answers for one field of an object of type N. */
  datatype Resolved<N> = Missing | Leaf(text: string) | Entity(node: N) | Many(items: seq<Resolved<N>>)

  type Resolver<!N> = (N, string, Arguments) -> Resolved<N>

  predicate Included(f: Field) {
    !f.skipIf && f.includeIf
  }

  function ResponseKey(f: Field): string {
    if f.alias.Some? then f.alias.value else f.name
  }

  /** The fields collected under one response key. */
  datatype Group = Group(key: string, fields: seq<Field>)

  function AddToGroups(groups: seq<Group>, f: Field): seq<Group> {
    if groups == [] then [Group(ResponseKey(f), [f])]
    else if groups[0].key == ResponseKey(f) then [groups[0].(fields := groups[0].fields + [f])] + groups[1..]
    else [groups[0]] + AddToGroups(groups[1..], f)
  }

  /** Groups in order of first occurrence of their keys. */
  function CollectFields(fields: seq<Field>): seq<Group> {
    if fields == [] then []
    else
      var groups, f := CollectFields(fields[..|fields| - 1]), fields[|fields| - 1];
      if Included(f) then AddToGroups(groups, f) else groups
  }

  function SelectionsOf(f: Field): seq<Field> {
    f.selections
  }

  /** The selection set under a group: its fields' selections one after the other. */
  function Merged(fields: seq<Field>): seq<Field> {
    FlatMap(SelectionsOf, fields)
  }

  function Weight(f: Field): nat {
    1 + Weights(f.selections)
  }

  function Weights(fields: seq<Field>): nat {
    if fields == [] then 0 else Weights(fields[..|fields| - 1]) + Weight(fields[|fields| - 1])
  }

  function GroupsWeight(groups: seq<Group>): nat {
    if groups == [] then 0 else GroupsWeight(groups[..|groups| - 1]) + Weights(groups[|groups| - 1].fields)
  }

  lemma {:induction false} WeightsConcat(a: seq<Field>, b: seq<Field>)
    ensures Weights(a + b) == Weights(a) + Weights(b)
  {
    if b == [] {
      assert a + b == a;
    } else {
      WeightsConcat(a, b[..|b| - 1]);
      assert (a + b)[..|a + b| - 1] == a + b[..|b| - 1];
    }
  }

  lemma {:induction false} MergedWeight(fields: seq<Field>)
    ensures Weights(Merged(fields)) + |fields| == Weights(fields)
  {
    if fields == [] {
    } else {
      MergedWeight(fields[..|fields| - 1]);
      WeightsConcat(Merged(fields[..|fields| - 1]), fields[|fields| - 1].selections);
    }
  }

  lemma {:induction false} GroupsWeightFirst(groups: seq<Group>)
    requires groups != []
    ensures GroupsWeight(groups) == Weights(groups[0].fields) + GroupsWeight(groups[1..])
  {
    if |groups| > 1 {
      GroupsWeightFirst(groups[..|groups| - 1]);
      assert groups[..|groups| - 1][1..] == groups[1..][..|groups| - 2];
    }
  }

  lemma {:induction false} AddedWeight(groups: seq<Group>, f: Field)
    requires forall g :: g in groups ==> g.fields != []
    ensures GroupsWeight(AddToGroups(groups, f)) == GroupsWeight(groups) + Weight(f)
    ensures forall g :: g in AddToGroups(groups, f) ==> g.fields != []
  {
    var added := AddToGroups(groups, f);
    if groups == [] {
      assert added[..0] == [] && [f][..0] == [];
    } else {
      GroupsWeightFirst(groups);
      GroupsWeightFirst(added);
      if groups[0].key == ResponseKey(f) {
        WeightsConcat(groups[0].fields, [f]);
        assert [f][..0] == [];
        assert added[1..] == groups[1..];
      } else {
        AddedWeight(groups[1..], f);
        assert added[1..] == AddToGroups(groups[1..], f);
      }
    }
  }

  lemma {:induction false} CollectedWeight(fields: seq<Field>)
    ensures GroupsWeight(CollectFields(fields)) <= Weights(fields)
    ensures forall g :: g in CollectFields(fields) ==> g.fields != []
  {
    if fields == [] {
    } else {
      CollectedWeight(fields[..|fields| - 1]);
      if Included(fields[|fields| - 1]) {
        AddedWeight(CollectFields(fields[..|fields| - 1]), fields[|fields| - 1]);
      }
    }
  }

  /** Executes a selection set on one object. */
  function Execute<N>(r: Resolver<N>, fields: seq<Field>, node: N): Members
    decreases Weights(fields), 2, 0
  {
    CollectedWeight(fields);
    ExecuteGroups(r, CollectFields(fields), node)
  }

  function ExecuteGroups<N>(r: Resolver<N>, groups: seq<Group>, node: N): Members
    requires forall g :: g in groups ==> g.fields != []
    decreases GroupsWeight(groups), 1, |groups|
  {
    if groups == [] then []
    else
      var g := groups[|groups| - 1];
      ExecuteGroups(r, groups[..|groups| - 1], node) + [(g.key, ExecuteField(r, g.fields, node))]
  }

  /** The first field of a group names what is resolved; all of them say what is selected. */
  function ExecuteField<N>(r: Resolver<N>, fields: seq<Field>, node: N): Json
    requires fields != []
    decreases Weights(fields), 0, 0
  {
    MergedWeight(fields);
    Complete(r, r(node, fields[0].name, fields[0].arguments), Merged(fields))
  }

  function Complete<N>(r: Resolver<N>, value: Resolved<N>, fields: seq<Field>): Json
    decreases Weights(fields), 3, value
  {
    match value
    case Missing => Null
    case Leaf(text) => Scalar(text)
    case Entity(node) => Object(Execute(r, fields, node))
    case Many(items) => Array(CompleteAll(r, items, fields))
  }

  function CompleteAll<N>(r: Resolver<N>, values: seq<Resolved<N>>, fields: seq<Field>): seq<Json>
    decreases Weights(fields), 3, values
  {
    if values == [] then []
    else CompleteAll(r, values[..|values| - 1], fields) + [Complete(r, values[|values| - 1], fields)]
  }

  /** The fields a selection set includes under a response key. */
  function WithKey(key: string): Field -> bool {
    (f: Field) => Included(f) && ResponseKey(f) == key
  }

  function KeyOf(f: Field): seq<string> {
    if Included(f) then [ResponseKey(f)] else []
  }

  /** The response keys a selection set includes, with repetitions. */
  function ResponseKeys(fields: seq<Field>): seq<string> {
    FlatMap(KeyOf, fields)
  }

  function GroupKeys(groups: seq<Group>): seq<string> {
    seq(|groups|, i requires 0 <= i < |groups| => groups[i].key)
  }

  function MemberKeys(members: Members): seq<string> {
    seq(|members|, i requires 0 <= i < |members| => members[i].0)
  }

  /** The object as an unordered map. */
  function AsMap(members: Members): map<string, Json> {
    if members == [] then map[]
    else
      var last := members[|members| - 1];
      AsMap(members[..|members| - 1])[last.0 := last.1]
  }

  ghost predicate Grouped(groups: seq<Group>, fields: seq<Field>) {
    && GroupKeys(groups) == Distinct(ResponseKeys(fields))
    && forall g :: g in groups ==> g.fields == Filter(WithKey(g.key), fields) && g.fields != []
  }

  lemma {:induction false} AddedGroups(groups: seq<Group>, f: Field)
    requires forall i, j :: 0 <= i < j < |groups| ==> groups[i].key != groups[j].key
    ensures |AddToGroups(groups, f)| >= |groups|
    ensures forall i :: 0 <= i < |groups| ==>
      && AddToGroups(groups, f)[i].key == groups[i].key
      && AddToGroups(groups, f)[i].fields == groups[i].fields + if groups[i].key == ResponseKey(f) then [f] else []
  {
    if groups != [] && groups[0].key != ResponseKey(f) {
      AddedGroups(groups[1..], f);
      var added := AddToGroups(groups, f);
      forall i | 1 <= i < |groups|
        ensures added[i].key == groups[i].key
        ensures added[i].fields == groups[i].fields + if groups[i].key == ResponseKey(f) then [f] else []
      {
        assert added[i] == AddToGroups(groups[1..], f)[i - 1] && groups[i] == groups[1..][i - 1];
      }
    }
  }

  lemma {:induction false} AddedLength(groups: seq<Group>, f: Field)
    ensures ResponseKey(f) in GroupKeys(groups) ==> |AddToGroups(groups, f)| == |groups|
    ensures ResponseKey(f) !in GroupKeys(groups) ==> AddToGroups(groups, f) == groups + [Group(ResponseKey(f), [f])]
  {
    if groups == [] {
    } else {
      assert GroupKeys(groups)[0] == groups[0].key;
      if groups[0].key != ResponseKey(f) {
        AddedLength(groups[1..], f);
        assert GroupKeys(groups) == [groups[0].key] + GroupKeys(groups[1..]);
      }
    }
  }

  /** Collection groups each key's fields in order and lists the keys by first occurrence. */
  lemma {:induction false} CollectionGroups(fields: seq<Field>)
    ensures Grouped(CollectFields(fields), fields)
  {
    if fields == [] {
    } else {
      var front, f := fields[..|fields| - 1], fields[|fields| - 1];
      var groups := CollectFields(front);
      CollectionGroups(front);
      assert fields == front + [f];
      FlatMapAppend(KeyOf, front, f);
      forall key { FilterAppend(WithKey(key), front, f); }
      DistinctElements(ResponseKeys(front));
      if Included(f) {
        CollectionAdds(groups, front, f);
      } else {
        assert ResponseKeys(fields) == ResponseKeys(front);
      }
    }
  }

  lemma CollectionAdds(groups: seq<Group>, front: seq<Field>, f: Field)
    requires Grouped(groups, front) && Included(f)
    ensures Grouped(AddToGroups(groups, f), front + [f])
  {
    AddedKeys(groups, front, f);
    DistinctElements(ResponseKeys(front));
    DifferentKeys(groups);
    AddedGroups(groups, f);
    AddedLength(groups, f);
    var added := AddToGroups(groups, f);
    forall i | 0 <= i < |added|
      ensures added[i].fields == Filter(WithKey(added[i].key), front + [f]) && added[i].fields != []
    {
      if i < |groups| {
        assert groups[i] in groups;
        AddedGroupFields(groups[i], added[i], front, f);
      } else {
        KeylessFilter(front, ResponseKey(f));
        AddedGroupFields(Group(ResponseKey(f), []), added[i], front, f);
      }
    }
  }

  lemma ResponseKeysAppend(fields: seq<Field>, f: Field)
    ensures ResponseKeys(fields + [f])
         == if Included(f) then ResponseKeys(fields) + [ResponseKey(f)] else ResponseKeys(fields)
  {
    FlatMapAppend(KeyOf, fields, f);
  }

  lemma AddedGroupKeys(groups: seq<Group>, f: Field)
    requires forall i, j :: 0 <= i < j < |groups| ==> groups[i].key != groups[j].key
    ensures var keys := GroupKeys(groups);
      GroupKeys(AddToGroups(groups, f)) == if ResponseKey(f) in keys then keys else keys + [ResponseKey(f)]
  {
    AddedGroups(groups, f);
    AddedLength(groups, f);
    if ResponseKey(f) !in GroupKeys(groups) {
      assert GroupKeys(AddToGroups(groups, f)) == GroupKeys(groups) + [ResponseKey(f)];
    }
  }

  lemma AddedKeys(groups: seq<Group>, front: seq<Field>, f: Field)
    requires Grouped(groups, front) && Included(f)
    ensures GroupKeys(AddToGroups(groups, f)) == Distinct(ResponseKeys(front + [f]))
  {
    hide AddToGroups, Distinct, ResponseKeys;
    ResponseKeysAppend(front, f);
    DistinctAppend(ResponseKeys(front), ResponseKey(f));
    DistinctElements(ResponseKeys(front));
    DifferentKeys(groups);
    AddedGroupKeys(groups, f);
  }

  lemma DifferentKeys(groups: seq<Group>)
    requires forall i, j :: 0 <= i < j < |GroupKeys(groups)| ==> GroupKeys(groups)[i] != GroupKeys(groups)[j]
    ensures forall i, j :: 0 <= i < j < |groups| ==> groups[i].key != groups[j].key
  {
    forall i, j | 0 <= i < j < |groups| ensures groups[i].key != groups[j].key {
      assert GroupKeys(groups)[i] != GroupKeys(groups)[j];
    }
  }

  lemma AddedGroupFields(g: Group, g': Group, front: seq<Field>, f: Field)
    requires Included(f) && g'.key == g.key && g.fields == Filter(WithKey(g.key), front)
    requires g'.fields == g.fields + if g.key == ResponseKey(f) then [f] else []
    ensures g'.fields == Filter(WithKey(g'.key), front + [f])
  {
    FilterAppend(WithKey(g.key), front, f);
  }

  lemma {:induction false} KeyPresence(fields: seq<Field>, key: string)
    ensures key in ResponseKeys(fields) <==> Filter(WithKey(key), fields) != []
  {
    if fields == [] {
    } else {
      KeyPresence(fields[..|fields| - 1], key);
    }
  }

  lemma KeylessFilter(fields: seq<Field>, key: string)
    requires key !in ResponseKeys(fields)
    ensures Filter(WithKey(key), fields) == []
  {
    KeyPresence(fields, key);
  }

  lemma {:induction false} GroupsLookup<N>(r: Resolver<N>, groups: seq<Group>, node: N, i: nat)
    requires forall g :: g in groups ==> g.fields != []
    requires forall a, b :: 0 <= a < b < |groups| ==> groups[a].key != groups[b].key
    requires i < |groups|
    ensures groups[i].key in AsMap(ExecuteGroups(r, groups, node))
    ensures AsMap(ExecuteGroups(r, groups, node))[groups[i].key] == ExecuteField(r, groups[i].fields, node)
  {
    hide ExecuteField;
    var n := |groups| - 1;
    if i < n {
      GroupsLookup(r, groups[..n], node, i);
    }
  }

  lemma {:induction false} GroupsMembers<N>(r: Resolver<N>, groups: seq<Group>, node: N)
    requires forall g :: g in groups ==> g.fields != []
    ensures MemberKeys(ExecuteGroups(r, groups, node)) == GroupKeys(groups)
  {
    if groups == [] {
      assert ExecuteGroups(r, groups, node) == [];
    } else {
      var front, g := groups[..|groups| - 1], groups[|groups| - 1];
      GroupsMembers(r, front, node);
      assert MemberKeys(ExecuteGroups(r, groups, node)) == MemberKeys(ExecuteGroups(r, front, node)) + [g.key];
      assert GroupKeys(groups) == GroupKeys(front) + [g.key];
    }
  }

  lemma {:induction false} MapKeys(members: Members, key: string)
    ensures key in AsMap(members) <==> key in MemberKeys(members)
  {
    if members == [] {
      assert MemberKeys(members) == [];
    } else {
      MapKeys(members[..|members| - 1], key);
      assert MemberKeys(members) == MemberKeys(members[..|members| - 1]) + [members[|members| - 1].0];
    }
  }

  /** The result of executing a selection set, key by key and in order. */
  lemma ExecutedMembers<N>(r: Resolver<N>, fields: seq<Field>, node: N, key: string)
    ensures MemberKeys(Execute(r, fields, node)) == Distinct(ResponseKeys(fields))
    ensures var own := Filter(WithKey(key), fields);
      && (key in AsMap(Execute(r, fields, node)) <==> own != [])
      && (own != [] ==> AsMap(Execute(r, fields, node))[key] == ExecuteField(r, own, node))
  {
    var groups := CollectFields(fields);
    CollectionGroups(fields);
    GroupsMembers(r, groups, node);
    MapKeys(Execute(r, fields, node), key);
    KeyPresence(fields, key);
    DistinctElements(ResponseKeys(fields));
    if key in GroupKeys(groups) {
      var i :| 0 <= i < |groups| && groups[i].key == key;
      DifferentKeys(groups);
      GroupsLookup(r, groups, node, i);
      assert groups[i] in groups;
    }
  }

  /** A response key is in the result exactly when a field answers under it that is not skipped and is included. */
  lemma ExecutedExactly<N>(r: Resolver<N>, fields: seq<Field>, node: N, key: string)
    ensures key in AsMap(Execute(r, fields, node)) <==>
      exists f :: f in fields && !f.skipIf && f.includeIf && key == (if f.alias.Some? then f.alias.value else f.name)
  {
    hide Execute, ExecuteField, AsMap;
    ExecutedMembers(r, fields, node, key);
    var own := Filter(WithKey(key), fields);
    if own != [] {
      FilterMembers(WithKey(key), fields, own[0]);
      assert own[0] in fields;
    }
    if f :| f in fields && !f.skipIf && f.includeIf && key == (if f.alias.Some? then f.alias.value else f.name) {
      FilterMembers(WithKey(key), fields, f);
    }
  }

  /** Under a repeated key the selections of its fields follow one another in order. */
  lemma MergedFirst(f: Field, rest: seq<Field>)
    ensures Merged([f] + rest) == f.selections + Merged(rest)
  {
    FlatMapFirst(SelectionsOf, [f] + rest);
    assert ([f] + rest)[1..] == rest;
  }

  /** What a resolved value becomes in the result. */
  lemma CompletedForms<N>(r: Resolver<N>, fields: seq<Field>, text: string, node: N, items: seq<Resolved<N>>, i: nat)
    ensures Complete(r, Missing, fields) == Null
    ensures Complete(r, Leaf(text), fields) == Scalar(text)
    ensures Complete(r, Entity(node), fields) == Object(Execute(r, fields, node))
    ensures Complete(r, Many(items), fields).Array? && |Complete(r, Many(items), fields).items| == |items|
    ensures i < |items| ==> Complete(r, Many(items), fields).items[i] == Complete(r, items[i], fields)
  {
    hide Execute;
    CompletedItems(r, items, fields, i);
  }

  lemma {:induction false} CompletedItems<N>(r: Resolver<N>, values: seq<Resolved<N>>, fields: seq<Field>, i: nat)
    ensures |CompleteAll(r, values, fields)| == |values|
    ensures i < |values| ==> CompleteAll(r, values, fields)[i] == Complete(r, values[i], fields)
  {
    hide Complete;
    if values == [] {
    } else {
      CompletedItems(r, values[..|values| - 1], fields, i);
    }
  }
}
