/** Who is told about a new leave request: every manager and every HR user,
    except the employee who filed it. */
module Recipients {
  import opened Records

  /** `keys` is an enumeration of the keys of `m`, as `Object.keys` returns
      one: every key exactly once. Its order is the runtime's choice. */
  predicate EnumeratesKeys<V>(keys: seq<string>, m: map<string, V>) {
    && Distinct(keys)
    && (forall k | k in keys :: k in m)
    && (forall k | k in m :: k in keys)
  }

  /** `r` can be obtained from `keys` by deleting some elements: the
      elements of `r` occur in `keys` in the same order. Matching each
      element of `r` with its first possible occurrence decides this. */
  predicate SubsequenceOf(r: seq<string>, keys: seq<string>)
    decreases |keys|
  {
    if r == [] then true
    else if keys == [] then false
    else if r[0] == keys[0] then SubsequenceOf(r[1..], keys[1..])
    else SubsequenceOf(r, keys[1..])
  }

  /** `Object.keys(users).filter(id => (role is manager or HR) && id !== userId)`,
      with the key order given as `keys`. The result keeps the order of
      `keys` and holds exactly the approvers among them other than the sender. */
  function Approvers(keys: seq<string>, users: UserTable, sender: string): (r: seq<string>)
    requires forall k | k in keys :: k in users
    ensures |r| <= |keys|
    ensures forall id :: id in r <==> id in keys && IsApprover(users[id].role) && id != sender
    ensures Distinct(keys) ==> Distinct(r)
    ensures SubsequenceOf(r, keys)
  {
    if keys == [] then []
    else
      var rest := Approvers(keys[1..], users, sender);
      var id := keys[0];
      if IsApprover(users[id].role) && id != sender then
        assert id !in keys[1..] ==> id !in rest;
        assert ([id] + rest)[1..] == rest;
        [id] + rest
      else
        assert rest != [] ==> rest[0] != id;
        rest
  }

  /** The recipient filter is exact: over the keys of the users table, an id
      is a recipient iff it is a user whose role is manager or HR and it is
      not the sender; and no recipient is listed twice. */
  lemma ApproversExact(keys: seq<string>, users: UserTable, sender: string)
    requires EnumeratesKeys(keys, users)
    ensures forall id :: id in Approvers(keys, users, sender) <==>
      id in users && IsApprover(users[id].role) && id != sender
    ensures Distinct(Approvers(keys, users, sender))
    ensures sender !in Approvers(keys, users, sender)
  {
  }
}
