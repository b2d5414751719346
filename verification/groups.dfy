/** The group label of a user (`get_user_in_group`): the first of five fixed
    groups, in a fixed order, that the user belongs to. */
module Groups {
  import opened Wrappers

  const CustomerWithSubscription := 539
  const CreditCustomer := 1494
  const LatticeEmployees := 1496
  const ChannelPremium := 1502
  const ChannelSelect := 1505

  /** (group id, label) in the order the groups are tried. */
  const GroupTable: seq<(int, string)> := [
    (CustomerWithSubscription, "Customer with Subscription"),
    (CreditCustomer, "Credit Customer"),
    (LatticeEmployees, "Lattice Employees"),
    (ChannelPremium, "Channel: Premium"),
    (ChannelSelect, "Channel: Free")
  ]

  /** The label of the first entry whose group satisfies `member`. */
  function FirstMatch(table: seq<(int, string)>, member: int -> bool): (r: Option<string>)
    ensures r.None? <==> forall i :: 0 <= i < |table| ==> !member(table[i].0)
    ensures r.Some? ==> exists i :: 0 <= i < |table| && member(table[i].0) && r.value == table[i].1
                          && forall j :: 0 <= j < i ==> !member(table[j].0)
  {
    if table == [] then None
    else if member(table[0].0) then Some(table[0].1)
    else
      var r := FirstMatch(table[1..], member);
      assert forall i :: 1 <= i < |table| ==> table[i] == table[1..][i - 1];
      r
  }

  /** `isUserInGroup(user, group)` stands for the learning platform's
      membership query. With no matching group the result is `None`: the
      PHP function returns nothing in that case. */
  function UserGroupLabel(isUserInGroup: (int, int) -> bool, user: int): (r: Option<string>)
    ensures r == Some("Customer with Subscription") <==> isUserInGroup(user, 539)
    ensures r == Some("Credit Customer") <==>
              !isUserInGroup(user, 539) && isUserInGroup(user, 1494)
    ensures r == Some("Lattice Employees") <==>
              !isUserInGroup(user, 539) && !isUserInGroup(user, 1494) && isUserInGroup(user, 1496)
    ensures r == Some("Channel: Premium") <==>
              !isUserInGroup(user, 539) && !isUserInGroup(user, 1494) && !isUserInGroup(user, 1496)
              && isUserInGroup(user, 1502)
    ensures r == Some("Channel: Free") <==>
              !isUserInGroup(user, 539) && !isUserInGroup(user, 1494) && !isUserInGroup(user, 1496)
              && !isUserInGroup(user, 1502) && isUserInGroup(user, 1505)
    ensures r.None? <==>
              !isUserInGroup(user, 539) && !isUserInGroup(user, 1494) && !isUserInGroup(user, 1496)
              && !isUserInGroup(user, 1502) && !isUserInGroup(user, 1505)
  {
    var r := FirstMatch(GroupTable, g => isUserInGroup(user, g));
    assert GroupTable[0].0 == 539 && GroupTable[1].0 == 1494 && GroupTable[2].0 == 1496;
    assert GroupTable[3].0 == 1502 && GroupTable[4].0 == 1505;
    r
  }
}
