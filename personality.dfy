/**
 * The seven personality types of the scoring service, the table that turns the display names
 * used as score keys into type ids, and the lookup by id.
 */
module Personality {
  import opened Wrappers

  /** A personality type; descriptions, colours and texts play no part in scoring. */
  datatype PersonalityType = PersonalityType(id: string, name: string)

  /** `PERSONALITY_TYPES`, in declaration order (which breaks ties in the breakdown). */
  const PersonalityTypes: seq<PersonalityType> := [
    PersonalityType("adventurer", "Adventurer"),
    PersonalityType("luxe-seeker", "Luxe Seeker"),
    PersonalityType("immersive-local", "Immersive Local"),
    PersonalityType("scholar", "Scholar"),
    PersonalityType("nomad", "Nomad"),
    PersonalityType("gastronome", "Gastronome"),
    PersonalityType("wellness-seeker", "Wellness Seeker")
  ]

  /** The ids of `PersonalityTypes`, in the same order (see `TypeIdsDistinct`). */
  const TypeIds: seq<string> := ["adventurer", "luxe-seeker", "immersive-local", "scholar", "nomad",
                                 "gastronome", "wellness-seeker"]

  /** The fixed table inside `mapScoreKeyToTypeId`: display name to type id. */
  const ScoreKeyMapping: seq<(string, string)> := [
    ("Adventurer", "adventurer"),
    ("Luxe Seeker", "luxe-seeker"),
    ("Immersive Local", "immersive-local"),
    ("Scholar", "scholar"),
    ("Nomad", "nomad"),
    ("Gastronome", "gastronome"),
    ("Wellness Seeker", "wellness-seeker")
  ]

  /** The value stored under `key` in a table of pairs (first entry wins). */
  function Lookup(table: seq<(string, string)>, key: string): (r: Option<string>)
    ensures r.Some? <==> exists k :: 0 <= k < |table| && table[k].0 == key
    ensures r.Some? ==> exists k :: 0 <= k < |table| && table[k] == (key, r.value)
  {
    if table == [] then None
    else if table[0].0 == key then Some(table[0].1)
    else
      var r := Lookup(table[1..], key);
      assert forall k :: 0 <= k < |table| - 1 ==> table[1..][k] == table[k + 1];
      r
  }

  /** `mapScoreKeyToTypeId`: a type's display name becomes that type's id; any other key,
      ids included, is passed through unchanged. */
  function MapScoreKeyToTypeId(key: string): (id: string)
    ensures forall k :: 0 <= k < |PersonalityTypes| && PersonalityTypes[k].name == key ==>
              id == PersonalityTypes[k].id
    ensures (forall k :: 0 <= k < |PersonalityTypes| ==> PersonalityTypes[k].name != key) ==> id == key
  {
    MappingMatchesTypes();
    match Lookup(ScoreKeyMapping, key)
    case Some(v) => if v != "" then v else key
    case None => key
  }

  /** Mapping a key a second time changes nothing: no type id is itself a display name. */
  lemma MapScoreKeyIdempotent(key: string)
    ensures MapScoreKeyToTypeId(MapScoreKeyToTypeId(key)) == MapScoreKeyToTypeId(key)
  {
    var id := MapScoreKeyToTypeId(key);
    if exists k :: 0 <= k < |PersonalityTypes| && PersonalityTypes[k].name == key {
      var k :| 0 <= k < |PersonalityTypes| && PersonalityTypes[k].name == key;
      assert id == PersonalityTypes[k].id;
      NamesAreNotIds();
    }
  }

  /** Display names start with a capital letter and ids with a small one, so no id is also a
      display name. */
  lemma NamesAreNotIds()
    ensures forall i, j :: 0 <= i < |PersonalityTypes| && 0 <= j < |PersonalityTypes| ==>
      PersonalityTypes[i].name != PersonalityTypes[j].id
  {
    assert forall i :: 0 <= i < |PersonalityTypes| ==>
      |PersonalityTypes[i].name| > 0 && 'A' <= PersonalityTypes[i].name[0] <= 'Z';
    assert forall j :: 0 <= j < |PersonalityTypes| ==>
      |PersonalityTypes[j].id| > 0 && 'a' <= PersonalityTypes[j].id[0] <= 'z';
  }

  /** The first type in `types` whose id is `id`. */
  function FindById(types: seq<PersonalityType>, id: string): (r: Option<PersonalityType>)
    ensures r.Some? <==> exists k :: 0 <= k < |types| && types[k].id == id
    ensures r.Some? ==> r.value.id == id && r.value in types
  {
    if types == [] then None
    else if types[0].id == id then Some(types[0])
    else
      var r := FindById(types[1..], id);
      assert forall k :: 0 <= k < |types| - 1 ==> types[1..][k] == types[k + 1];
      r
  }

  /** `getPersonalityType`: the declared type with this id, if any. */
  function GetPersonalityType(id: string): (r: Option<PersonalityType>)
    ensures r.Some? <==> id in TypeIds
    ensures r.Some? ==> r.value.id == id && r.value in PersonalityTypes
  {
    FindById(PersonalityTypes, id)
  }

  /** The position of `id` in the declaration order, or 7 for an id that is not declared. */
  function DeclIndex(id: string): (k: nat)
    ensures k <= |TypeIds|
    ensures k < |TypeIds| <==> id in TypeIds
    ensures k < |TypeIds| ==> TypeIds[k] == id
  {
    IndexOf(TypeIds, id)
  }

  function IndexOf(ids: seq<string>, id: string): (k: nat)
    ensures k <= |ids|
    ensures k < |ids| <==> id in ids
    ensures k < |ids| ==> ids[k] == id && id !in ids[..k]
  {
    if ids == [] then 0
    else if ids[0] == id then 0
    else
      var k := IndexOf(ids[1..], id) + 1;
      assert ids[..k] == [ids[0]] + ids[1..][..k - 1];
      k
  }

  /** The declared ids are pairwise distinct, so each id has one declaration position. */
  lemma TypeIdsDistinct()
    ensures |TypeIds| == |PersonalityTypes| == 7
    ensures forall i :: 0 <= i < |TypeIds| ==> TypeIds[i] == PersonalityTypes[i].id
    ensures forall i, j :: 0 <= i < j < |TypeIds| ==> TypeIds[i] != TypeIds[j]
    ensures forall i :: 0 <= i < |TypeIds| ==> DeclIndex(TypeIds[i]) == i
  {
  }

  /** The mapping table pairs each type's display name with that type's id, and display names
      are pairwise distinct. */
  lemma MappingMatchesTypes()
    ensures |ScoreKeyMapping| == |PersonalityTypes|
    ensures forall k :: 0 <= k < |ScoreKeyMapping| ==>
              ScoreKeyMapping[k] == (PersonalityTypes[k].name, PersonalityTypes[k].id)
    ensures forall i, j :: 0 <= i < j < |PersonalityTypes| ==> PersonalityTypes[i].name != PersonalityTypes[j].name
    ensures forall i :: 0 <= i < |PersonalityTypes| ==> PersonalityTypes[i].id != ""
  {
  }
}
