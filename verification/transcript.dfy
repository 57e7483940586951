/** The shape both chat components keep their transcript in: user and
    assistant turns alternating, starting with the user. */
module Transcript {
  import opened Relay

  /** Whose message belongs at position `i`. */
  function Turn(i: nat): Role {
    if i % 2 == 0 then User else Assistant
  }

  ghost predicate Alternates(roles: seq<Role>) {
    forall i :: 0 <= i < |roles| ==> roles[i] == Turn(i)
  }

  function Count(roles: seq<Role>, role: Role): nat {
    if roles == [] then 0
    else Count(roles[..|roles| - 1], role) + (if roles[|roles| - 1] == role then 1 else 0)
  }

  lemma AppendAlternates(roles: seq<Role>, role: Role)
    requires Alternates(roles) && role == Turn(|roles|)
    ensures Alternates(roles + [role])
  {
    var t := roles + [role];
    forall i | 0 <= i < |t| ensures t[i] == Turn(i) {
      if i < |roles| {
        assert t[i] == roles[i];
      }
    }
  }

  /** In an alternating transcript every user turn but an unanswered last one has exactly one answer. */
  lemma {:induction false} AlternatesCounts(roles: seq<Role>)
    requires Alternates(roles)
    ensures Count(roles, User) == Count(roles, Assistant) + |roles| % 2
  {
    if roles != [] {
      var init := roles[..|roles| - 1];
      assert Alternates(init) by {
        forall i | 0 <= i < |init| ensures init[i] == Turn(i) {
          assert init[i] == roles[i];
        }
      }
      AlternatesCounts(init);
    }
  }
}
