/** Permission masks of the QEMU block layer, and the default rules that turn the
    permissions in force on a node into the permissions it takes on its children. */
module Perms {

  /** A permission mask: the four BLK_PERM_* bits. */
  datatype Mask = Mask(consistentRead: bool, write: bool, writeUnchanged: bool, resize: bool)

  const NONE := Mask(false, false, false, false)
  const ALL := Mask(true, true, true, true)

  predicate Sub(a: Mask, b: Mask) {
    && (a.consistentRead ==> b.consistentRead)
    && (a.write ==> b.write)
    && (a.writeUnchanged ==> b.writeUnchanged)
    && (a.resize ==> b.resize)
  }

  function Or(a: Mask, b: Mask): Mask {
    Mask(a.consistentRead || b.consistentRead, a.write || b.write,
         a.writeUnchanged || b.writeUnchanged, a.resize || b.resize)
  }

  function And(a: Mask, b: Mask): Mask {
    Mask(a.consistentRead && b.consistentRead, a.write && b.write,
         a.writeUnchanged && b.writeUnchanged, a.resize && b.resize)
  }

  /** Does the mask ask for any kind of write? */
  predicate Writes(m: Mask) {
    m.write || m.writeUnchanged
  }

  /** The role bits of a child link; `primary` carries no permission meaning. */
  datatype Role = Role(data: bool, metadata: bool, filtered: bool, cow: bool, primary: bool)

  /** What the asserts of the default permission rule demand of a role. */
  predicate ValidRole(r: Role) {
    if r.filtered then !r.data && !r.metadata && !r.cow
    else if r.cow then !r.data && !r.metadata
    else r.data || r.metadata
  }

  /** The open flags of a node that the permission rules look at. */
  datatype Flags = Flags(readWrite: bool, inactive: bool, noIo: bool)

  predicate Writable(f: Flags) {
    f.readWrite && !f.inactive
  }

  /** What a user takes on a node, and what it leaves to the other users. */
  datatype Grant = Grant(perm: Mask, shared: Mask)

  /** `a` takes no more, and leaves no less to others, than `b`. */
  predicate Looser(a: Grant, b: Grant) {
    Sub(a.perm, b.perm) && Sub(b.shared, a.shared)
  }

  /** Filters forward all four permissions in both directions. */
  function FilterPerms(held: Grant): Grant {
    held
  }

  function CowPerms(f: Flags, held: Grant): Grant {
    var open := held.shared.write || f.inactive;
    Grant(NONE.(consistentRead := held.perm.consistentRead), Mask(true, open, true, open))
  }

  function StoragePerms(f: Flags, role: Role, held: Grant): Grant {
    var fwd := FilterPerms(held);
    var p1 := if role.metadata && Writable(f) then fwd.perm.(write := true, resize := true) else fwd.perm;
    var p2 := if role.metadata && !f.noIo then p1.(consistentRead := true) else p1;
    var s1 := if role.metadata then fwd.shared.(write := false, resize := false) else fwd.shared;
    var s2 := if role.data then s1.(resize := false) else s1;
    var p3 := if role.data && p2.writeUnchanged then p2.(write := true) else p2;
    var p4 := if role.data && p3.write then p3.(resize := true) else p3;
    var s3 := if f.inactive then s2.(write := true, resize := true) else s2;
    Grant(p4, s3)
  }

  /** The permissions a node with flags `f`, on which `held` is in force, takes on
      a child in the given role. */
  function DefaultPerms(f: Flags, role: Role, held: Grant): Grant
    requires ValidRole(role)
  {
    if role.filtered then FilterPerms(held)
    else if role.cow then CowPerms(f, held)
    else StoragePerms(f, role, held)
  }

  /** A child opened with force_share is shared with everybody. */
  function ChildPerms(f: Flags, childForceShare: bool, role: Role, held: Grant): Grant
    requires ValidRole(role)
  {
    var d := DefaultPerms(f, role, held);
    if childForceShare then d.(shared := ALL) else d
  }

  lemma CowMonotone(f: Flags, h1: Grant, h2: Grant)
    requires Looser(h1, h2)
    ensures Looser(CowPerms(f, h1), CowPerms(f, h2))
  {
  }

  lemma StorageMonotone(f: Flags, role: Role, h1: Grant, h2: Grant)
    requires Looser(h1, h2)
    ensures Looser(StoragePerms(f, role, h1), StoragePerms(f, role, h2))
  {
  }

  /** The default rule is monotone: loosening what is in force on a node never
      tightens what the node takes on a child. */
  lemma ChildPermsMonotone(f: Flags, forceShare: bool, role: Role, h1: Grant, h2: Grant)
    requires ValidRole(role) && Looser(h1, h2)
    ensures Looser(ChildPerms(f, forceShare, role, h1), ChildPerms(f, forceShare, role, h2))
  {
    hide CowPerms, StoragePerms;
    CowMonotone(f, h1, h2);
    StorageMonotone(f, role, h1, h2);
  }
}
