/** The collection teams of the newer dashboard and the availability filter of the
    dispatch dialog's team list. */
module Dispatch {
  import opened Seqs

  /** One entry of `dispatchTeams`; `rating` is a decimal such as 4.8. */
  datatype Team = Team(
    id: string,
    name: string,
    members: nat,
    vehicle: string,
    status: string,
    currentLocation: string,
    rating: real,
    completedJobs: nat)

  /** The fixed team list: four available teams and one busy one. */
  const DispatchTeams: seq<Team> := [
    Team("TEAM001", "Alpha Collection Team", 4, "Truck-12", "available", "Pokhara Central", 4.8, 127),
    Team("TEAM002", "Beta Collection Team", 3, "Truck-15", "available", "Lakeside Area", 4.6, 98),
    Team("TEAM003", "Gamma Collection Team", 5, "Truck-08", "available", "Mahendrapul", 4.9, 156),
    Team("TEAM004", "Delta Collection Team", 4, "Truck-22", "busy", "Birauta", 4.7, 112),
    Team("TEAM005", "Epsilon Collection Team", 3, "Truck-19", "available", "Prithvi Chowk", 4.5, 89)
  ]

  /** The filter of the team list: `team.status === "available"`. */
  predicate IsAvailable(t: Team) { t.status == "available" }

  /** The teams the dialog lists, in their order in `teams`. */
  function AvailableTeams(teams: seq<Team>): (r: seq<Team>)
    ensures |r| <= |teams|
  {
    Filter(teams, IsAvailable)
  }

  /** The ids the dialog offers, one per listed team. */
  function SelectableIds(teams: seq<Team>): (r: seq<string>)
    ensures |r| == |AvailableTeams(teams)|
  {
    var avail := AvailableTeams(teams);
    seq(|avail|, i requires 0 <= i < |avail| => avail[i].id)
  }

  /** A team is listed exactly when it is in the list and its status is "available";
      a busy team is never offered. */
  lemma AvailableExactly(teams: seq<Team>, t: Team)
    ensures t in AvailableTeams(teams) <==> t in teams && t.status == "available"
  {
    FilterMembership(teams, IsAvailable, t);
  }

  /** An id can be selected exactly when some available team carries it. */
  lemma SelectableExactly(teams: seq<Team>, id: string)
    ensures id in SelectableIds(teams)
        <==> exists t :: t in teams && t.status == "available" && t.id == id
  {
    var avail := AvailableTeams(teams);
    if id in SelectableIds(teams) {
      var i :| 0 <= i < |avail| && avail[i].id == id;
      AvailableExactly(teams, avail[i]);
    }
    if exists t :: t in teams && t.status == "available" && t.id == id {
      var t :| t in teams && t.status == "available" && t.id == id;
      AvailableExactly(teams, t);
      var i :| 0 <= i < |avail| && avail[i] == t;
      assert SelectableIds(teams)[i] == id;
    }
  }

  /** Of the fixed list, the first three teams and the fifth are available. */
  lemma FixedTeamsAvailable()
    ensures AvailableTeams(DispatchTeams)
         == [DispatchTeams[0], DispatchTeams[1], DispatchTeams[2], DispatchTeams[4]]
  {
    var ts := DispatchTeams;
    var t1, t2, t3, t4, t5 := ts[0], ts[1], ts[2], ts[3], ts[4];
    assert !IsAvailable(t4) by {
      assert |t4.status| != |"available"|;
    }
    assert Filter([t1, t2, t3], IsAvailable) == [t1, t2, t3] by {
      FirstThreeAvailable(t1, t2, t3);
    }
    FilterSnoc([t1, t2, t3], t4, IsAvailable);
    FilterSnoc([t1, t2, t3, t4], t5, IsAvailable);
    assert [t1, t2, t3] + [t4] == [t1, t2, t3, t4];
    assert [t1, t2, t3, t4] + [t5] == ts;
  }

  /** Three available teams in a row are all listed. */
  lemma FirstThreeAvailable(t1: Team, t2: Team, t3: Team)
    requires IsAvailable(t1) && IsAvailable(t2) && IsAvailable(t3)
    ensures Filter([t1, t2, t3], IsAvailable) == [t1, t2, t3]
  {
    FilterSnoc([], t1, IsAvailable);
    FilterSnoc([t1], t2, IsAvailable);
    FilterSnoc([t1, t2], t3, IsAvailable);
    assert [] + [t1] == [t1];
    assert [t1] + [t2] == [t1, t2];
    assert [t1, t2] + [t3] == [t1, t2, t3];
  }

  /** With the fixed list the dialog offers TEAM001, TEAM002, TEAM003 and TEAM005, in that
      order; TEAM004 is busy. */
  lemma FixedTeamsOffered()
    ensures SelectableIds(DispatchTeams) == ["TEAM001", "TEAM002", "TEAM003", "TEAM005"]
    ensures "TEAM004" !in SelectableIds(DispatchTeams)
  {
    FixedTeamsAvailable();
  }
}
