/** Identities: who traffic belongs to, who may see them, and the labels they
    are grouped under. */
module Identities {
  import opened Counters

  /** What a process resolves to. The first five fields are the natural key;
      the rest are display only. */
  datatype NaturalKey = NaturalKey(uid: nat, unit: string, exe: string, projectRoot: string, cmdline: string)

  datatype Record = Record(key: NaturalKey, comm: string, rawCmdline: string, username: Option<string>)

  /** A row of the `identity` table. */
  datatype Identity = Identity(record: Record, firstSeen: int, lastSeen: int)

  type Registry = map<int, Identity>

  datatype Visibility = All | Uid(uid: nat)

  /** What a connecting uid may look at. */
  function ForPeer(uid: nat): Visibility {
    if uid == 0 then All else Uid(uid)
  }

  predicate Sees(vis: Visibility, i: Identity) {
    vis == All || vis == Uid(i.record.key.uid)
  }

  /** A peer is shown an identity if and only if it is root or the owner. */
  lemma PeerSees(uid: nat, i: Identity)
    ensures Sees(ForPeer(uid), i) <==> uid == 0 || uid == i.record.key.uid
  {
  }

  datatype GroupBy = ByIdentity | ByProject | ByExe | ByUser

  predicate Grouped(grouping: GroupBy) {
    grouping != ByIdentity
  }

  function Decimal(n: nat): string {
    if n < 10 then ["0123456789"[n]] else Decimal(n / 10) + ["0123456789"[n % 10]]
  }

  /** The username a reader is shown: `coalesce(username, '')`. */
  function ShownUser(i: Identity): string {
    match i.record.username case Some(name) => name case None => ""
  }

  /** The label live deltas are grouped under. */
  function LiveGroup(i: Identity, grouping: GroupBy): string {
    match grouping
    case ByProject => i.record.key.projectRoot
    case ByExe => i.record.key.exe
    case ByUser => if ShownUser(i) == "" then Decimal(i.record.key.uid) else ShownUser(i)
    case ByIdentity => ""
  }

  /** The label of a stored row: for a user the recorded name, an empty one
      included, and the uid only where none is recorded. */
  function StoredGroup(i: Identity, grouping: GroupBy): string {
    match grouping
    case ByProject => i.record.key.projectRoot
    case ByExe => i.record.key.exe
    case ByUser => (match i.record.username case Some(name) => name case None => Decimal(i.record.key.uid))
    case ByIdentity => ""
  }

  lemma DecimalNotEmpty(n: nat)
    ensures Decimal(n) != ""
  {
  }

  /** Live and stored grouping use the same labels, except that a user whose
      recorded name is empty is labelled by uid live and by the empty name in
      the store. */
  lemma LabelsAgree(i: Identity, grouping: GroupBy)
    ensures LiveGroup(i, grouping) == StoredGroup(i, grouping)
         <==> !(grouping == ByUser && i.record.username == Some(""))
  {
    DecimalNotEmpty(i.record.key.uid);
  }

  // ---- The registry

  /** The natural key is UNIQUE and ids count up from 1. */
  ghost predicate RegistryOk(ids: Registry, next: int) {
    && 1 <= next
    && (forall id :: id in ids ==> 1 <= id < next)
    && (forall a, b :: a in ids && b in ids && ids[a].record.key == ids[b].record.key ==> a == b)
  }

  predicate Known(ids: Registry, key: NaturalKey) {
    exists id :: id in ids && ids[id].record.key == key
  }

  /** The id a key has, or the one it is about to get. */
  ghost function IdOf(ids: Registry, next: int, key: NaturalKey): (id: int)
    ensures Known(ids, key) ==> id in ids && ids[id].record.key == key
    ensures !Known(ids, key) ==> id == next
  {
    if Known(ids, key) then var id :| id in ids && ids[id].record.key == key; id else next
  }

  /** The registry after a process has been seen as `rec`: an entry for its key,
      new or brought up to date. */
  ghost function Upserted(ids: Registry, next: int, rec: Record, seen: int): Registry {
    var id := IdOf(ids, next, rec.key);
    ids[id := Identity(rec, if Known(ids, rec.key) then ids[id].firstSeen else seen, seen)]
  }

  lemma UpsertKeepsRegistry(ids: Registry, next: int, rec: Record, seen: int)
    requires RegistryOk(ids, next)
    ensures RegistryOk(Upserted(ids, next, rec, seen), if Known(ids, rec.key) then next else next + 1)
  {
  }

  /** An id, once given, belongs to its natural key for ever, so neither its
      owner nor its project nor its program can change under it; upserting the
      same key again gives the same id; and only that id's row changes, which
      keeps its first sighting and takes the last seen attributes. */
  lemma IdsAreStable(ids: Registry, next: int, rec: Record, seen: int, id: int, again: Record)
    requires RegistryOk(ids, next)
    ensures id in ids ==>
      id in Upserted(ids, next, rec, seen) && Upserted(ids, next, rec, seen)[id].record.key == ids[id].record.key
    ensures var ids' := Upserted(ids, next, rec, seen);
            var next' := if Known(ids, rec.key) then next else next + 1;
      again.key == rec.key ==> IdOf(ids', next', again.key) == IdOf(ids, next, rec.key)
    ensures var upserted, own := Upserted(ids, next, rec, seen), IdOf(ids, next, rec.key);
      && (id in ids && id != own ==> upserted[id] == ids[id])
      && own in upserted && upserted[own].record == rec && upserted[own].lastSeen == seen
      && upserted[own].firstSeen == if Known(ids, rec.key) then ids[own].firstSeen else seen
  {
    UpsertKeepsRegistry(ids, next, rec, seen);
    var ids' := Upserted(ids, next, rec, seen);
    assert IdOf(ids, next, rec.key) in ids';
  }
}
