/** The profile store the server actions read. Its definition is not part of the
    repository's shown files, so it is modelled as a sequence of records carrying the
    fields the actions read. */
module Profiles {
  import opened Wrappers
  import opened Types

  datatype Profile = Profile(
    id: string,
    fullName: string,
    phone: string,
    role: UserRole,
    status: string,
    balanceAvailable: int)

  /** `profiles.findIndex(pred)`: the position of the first record satisfying `pred`. */
  function FindIndex(profiles: seq<Profile>, pred: Profile -> bool): (r: Option<nat>)
    ensures r.Some? ==> r.value < |profiles| && pred(profiles[r.value])
    ensures r.Some? ==> forall j :: 0 <= j < r.value ==> !pred(profiles[j])
    ensures r.None? <==> forall j :: 0 <= j < |profiles| ==> !pred(profiles[j])
    decreases |profiles|
  {
    if profiles == [] then None
    else if pred(profiles[0]) then Some(0)
    else match FindIndex(profiles[1..], pred)
      case None => None
      case Some(i) => Some(i + 1)
  }

  /** `profiles.find(pred)`: the first record satisfying `pred`, if any. */
  function Find(profiles: seq<Profile>, pred: Profile -> bool): (r: Option<Profile>)
    ensures r.Some? ==>
      exists i :: 0 <= i < |profiles| && profiles[i] == r.value && pred(r.value) &&
                  forall j :: 0 <= j < i ==> !pred(profiles[j])
    ensures r.None? <==> forall p :: p in profiles ==> !pred(p)
  {
    match FindIndex(profiles, pred)
    case None => None
    case Some(i) => Some(profiles[i])
  }

  /** `MOCK_ALL_PROFILES.find((p) => p.phone === phone)`: some record has the phone
      exactly when a record is found, and that record is the first with the phone. */
  function FindByPhone(profiles: seq<Profile>, phone: string): (r: Option<Profile>)
    ensures r.Some? <==> exists p :: p in profiles && p.phone == phone
    ensures r.Some? ==>
      exists i :: 0 <= i < |profiles| && profiles[i] == r.value && r.value.phone == phone &&
                  forall j :: 0 <= j < i ==> profiles[j].phone != phone
  {
    var r := Find(profiles, (p: Profile) => p.phone == phone);
    assert r.None? ==> forall p :: p in profiles ==> !(p.phone == phone);
    r
  }

  /** `MOCK_ALL_PROFILES.find((p) => p.id === id)`: some record has the id exactly
      when a record is found, and that record is the first with the id. */
  function FindById(profiles: seq<Profile>, id: string): (r: Option<Profile>)
    ensures r.Some? <==> exists p :: p in profiles && p.id == id
    ensures r.Some? ==>
      exists i :: 0 <= i < |profiles| && profiles[i] == r.value && r.value.id == id &&
                  forall j :: 0 <= j < i ==> profiles[j].id != id
  {
    var r := Find(profiles, (p: Profile) => p.id == id);
    assert r.None? ==> forall p :: p in profiles ==> !(p.id == id);
    r
  }
}
