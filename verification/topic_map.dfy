/** The client's topic-id to topic-name map (`topic_map` in mqtt-sn.c), a
    linked list modelled as a sequence in list order. */
module TopicMap {
  import opened Wrappers
  import opened Octets
  import opened Protocol

  datatype Entry = Entry(id: U16, name: Bytes)

  type Topics = seq<Entry>

  /** The map before anything is registered (`topic_map = NULL`). */
  const Empty: Topics := []

  /** Topic ids 0x0000 and 0xFFFF are reserved (section 5.3.11 of MQTT-SN v1.2). */
  predicate ValidTopicId(id: U16)
  {
    id != 0x0000 && id != 0xFFFF
  }

  /** No topic id occurs twice. */
  predicate UniqueIds(m: Topics)
  {
    forall i, j :: 0 <= i < j < |m| ==> m[i].id != m[j].id
  }

  /** Every entry has a topic id that is not reserved. */
  predicate ValidIds(m: Topics)
  {
    forall i :: 0 <= i < |m| ==> ValidTopicId(m[i].id)
  }

  predicate Absent(m: Topics, id: U16)
  {
    forall i :: 0 <= i < |m| ==> m[i].id != id
  }

  /** What an entry keeps of a name: `strncpy` into a field of
      `MaxTopicLength` octets. */
  function StoredName(name: Bytes): (r: Bytes)
    ensures |name| <= MaxTopicLength ==> r == name
  {
    Truncate(name, MaxTopicLength)
  }

  /** The position the search loop of `mqtt_sn_register_topic` stops at:
      the first entry with the id, if any. */
  function Find(m: Topics, id: U16): (r: Option<nat>)
    ensures r.Some? ==> r.value < |m| && m[r.value].id == id
    ensures r.Some? ==> forall j :: 0 <= j < r.value ==> m[j].id != id
    ensures r.None? <==> Absent(m, id)
  {
    if |m| == 0 then None
    else if m[0].id == id then Some(0)
    else match Find(m[1..], id)
      case None => None
      case Some(k) => Some(k + 1)
  }

  /** `mqtt_sn_lookup_topic`: the name of the first entry with the id, or
      NULL when there is none. */
  function Lookup(m: Topics, id: U16): (r: Option<Bytes>)
    ensures r.None? <==> Absent(m, id)
  {
    if |m| == 0 then None
    else if m[0].id == id then Some(m[0].name)
    else Lookup(m[1..], id)
  }

  /** Lookup finds the first entry that carries the id. */
  lemma {:induction false} LookupFirst(m: Topics, id: U16, k: nat)
    requires k < |m| && m[k].id == id
    requires forall j :: 0 <= j < k ==> m[j].id != id
    ensures Lookup(m, id) == Some(m[k].name)
  {
    if k > 0 {
      LookupFirst(m[1..], id, k - 1);
    }
  }

  /** In a map without repeated ids, Lookup finds the one entry with the id. */
  lemma LookupUnique(m: Topics, k: nat)
    requires UniqueIds(m) && k < |m|
    ensures Lookup(m, m[k].id) == Some(m[k].name)
  {
    LookupFirst(m, m[k].id, k);
  }

  /** `mqtt_sn_register_topic`: a reserved id, or a NULL or empty name, leaves
      the map as it was; otherwise the entry with the id gets the new name in
      place, or a new entry is appended at the end of the list. */
  function RegisterTopic(m: Topics, id: U16, name: Option<Bytes>): (r: Topics)
    ensures !ValidTopicId(id) || name.None? || |name.value| == 0 ==> r == m
    ensures ValidTopicId(id) && name.Some? && |name.value| > 0 ==>
              && (Absent(m, id) ==> r == m + [Entry(id, StoredName(name.value))])
              && (!Absent(m, id) ==> |r| == |m|)
              && (forall i :: 0 <= i < |m| && m[i].id != id ==> r[i] == m[i])
  {
    if !ValidTopicId(id) then m
    else if name.None? || |name.value| == 0 then m
    else match Find(m, id)
      case Some(k) => m[k := Entry(id, StoredName(name.value))]
      case None => m + [Entry(id, StoredName(name.value))]
  }

  /** After a successful registration, looking the id up gives the name. */
  lemma RegisterThenLookup(m: Topics, id: U16, name: Bytes)
    requires ValidTopicId(id) && |name| > 0
    ensures Lookup(RegisterTopic(m, id, Some(name)), id) == Some(StoredName(name))
  {
    var r := RegisterTopic(m, id, Some(name));
    match Find(m, id)
    case Some(k) =>
      LookupFirst(r, id, k);
    case None =>
      LookupFirst(r, id, |m|);
  }

  /** Registering one id does not change what any other id looks up to. */
  lemma {:induction false} RegisterKeepsOthers(m: Topics, id: U16, name: Option<Bytes>, other: U16)
    requires other != id
    ensures Lookup(RegisterTopic(m, id, name), other) == Lookup(m, other)
  {
    if ValidTopicId(id) && name.Some? && |name.value| > 0 && |m| > 0 {
      var e := Entry(id, StoredName(name.value));
      var r := RegisterTopic(m, id, name);
      if m[0].id == id {
        assert r == [e] + m[1..];
        assert r[1..] == m[1..];
      } else {
        assert r == [m[0]] + RegisterTopic(m[1..], id, name) by {
          match Find(m[1..], id)
          case Some(k) =>
            assert r == m[k + 1 := e];
          case None =>
        }
        RegisterKeepsOthers(m[1..], id, name, other);
        assert r[1..] == RegisterTopic(m[1..], id, name);
      }
    }
  }

  /** Registration keeps topic ids unique and never stores a reserved id. */
  lemma RegisterKeepsInvariant(m: Topics, id: U16, name: Option<Bytes>)
    requires UniqueIds(m) && ValidIds(m)
    ensures UniqueIds(RegisterTopic(m, id, name)) && ValidIds(RegisterTopic(m, id, name))
  {
  }

  /** `mqtt_sn_cleanup`: every entry is freed and the list is empty again. */
  function Cleanup(m: Topics): (r: Topics)
    ensures forall id :: Lookup(r, id).None?
    ensures UniqueIds(r) && ValidIds(r)
  {
    Empty
  }
}
