/** The backend's UserProfileModel: the `user_profiles` table as its rows in
    insertion order, at most one per user, written by an upsert. */
module UserProfileModel {
  import opened Text
  import opened Seqs

  /** The six answers of the onboarding questionnaire; `None` is an absent
      field, stored as NULL. */
  datatype Answers = Answers(
    jobTitle: Option<string>,
    experienceLevel: Option<string>,
    areasOfInterest: Option<seq<string>>,
    primaryGoals: Option<string>,
    industry: Option<string>,
    companySize: Option<string>)

  datatype ProfileRow = ProfileRow(id: int, userId: int, answers: Answers, onboardingCompleted: bool)

  /** `UPDATE user_profiles SET ... WHERE user_id = $7` over the rows: all
      six answers are overwritten and onboarding is marked complete. */
  function Overwrite(rows: seq<ProfileRow>, userId: int, answers: Answers): (r: seq<ProfileRow>)
    ensures |r| == |rows|
    ensures forall i :: 0 <= i < |rows| ==>
              r[i] == if rows[i].userId == userId then rows[i].(answers := answers, onboardingCompleted := true) else rows[i]
  {
    seq(|rows|, i requires 0 <= i < |rows| =>
      if rows[i].userId == userId then rows[i].(answers := answers, onboardingCompleted := true) else rows[i])
  }

  class ProfileTable {
    var rows: seq<ProfileRow>
    var nextId: int

    /** Ids increase along the table and stay below `nextId`; each user has
        at most one profile. */
    ghost predicate Valid()
      reads this
    {
      nextId >= 1
      && (forall p :: p in rows ==> 1 <= p.id < nextId)
      && Pairwise(rows, (a: ProfileRow, b: ProfileRow) => a.id < b.id)
      && Pairwise(rows, (a: ProfileRow, b: ProfileRow) => a.userId != b.userId)
    }

    constructor ()
      ensures Valid() && rows == [] && nextId == 1
    {
      rows := [];
      nextId := 1;
    }

    /** getByUserId: the user's profile, or null. */
    function GetByUserId(userId: int): (r: Option<ProfileRow>)
      reads this
      ensures r.None? <==> forall p :: p in rows ==> p.userId != userId
      ensures r.Some? ==> r.value in rows && r.value.userId == userId
    {
      Find(rows, (p: ProfileRow) => p.userId == userId)
    }

    /** isOnboardingCompleted: the profile's flag, or false without one. */
    function IsOnboardingCompleted(userId: int): (b: bool)
      reads this
      ensures GetByUserId(userId).None? ==> !b
      ensures GetByUserId(userId).Some? ==> b == GetByUserId(userId).value.onboardingCompleted
    {
      match GetByUserId(userId)
      case None => false
      case Some(p) => p.onboardingCompleted
    }

    /** createOrUpdateProfile: overwrite the user's profile when there is
        one, insert one otherwise; either way the returned row holds the
        answers and marks onboarding complete. */
    method CreateOrUpdateProfile(userId: int, answers: Answers) returns (r: ProfileRow)
      requires Valid()
      modifies this
      ensures Valid()
      ensures r.userId == userId && r.answers == answers && r.onboardingCompleted
      ensures (exists p :: p in old(rows) && p.userId == userId) ==>
                rows == Overwrite(old(rows), userId, answers) && nextId == old(nextId)
      ensures (forall p :: p in old(rows) ==> p.userId != userId) ==>
                rows == old(rows) + [r] && r.id == old(nextId) && nextId == old(nextId) + 1
      ensures GetByUserId(userId) == Some(r)
    {
      var existing := GetByUserId(userId);
      if existing.Some? {
        var updated := Overwrite(rows, userId, answers);
        assert forall i :: 0 <= i < |rows| ==> updated[i].id == rows[i].id && updated[i].userId == rows[i].userId;
        assert forall p :: p in updated ==> exists i :: 0 <= i < |rows| && p == updated[i];
        r := existing.value.(answers := answers, onboardingCompleted := true);
        OverwriteFinds(rows, userId, answers, existing.value);
        rows := updated;
      } else {
        r := ProfileRow(nextId, userId, answers, true);
        rows := rows + [r];
        nextId := nextId + 1;
        assert rows[|rows| - 1] == r;
        assert forall j :: 0 <= j < |rows| - 1 ==> rows[j] in old(rows);
      }
    }

    /** deleteProfile: removes the user's profile and returns its id, or
        null when there was none. */
    method DeleteProfile(userId: int) returns (r: Option<int>)
      requires Valid()
      modifies this
      ensures Valid() && nextId == old(nextId)
      ensures rows == Filter(old(rows), (p: ProfileRow) => p.userId != userId)
      ensures r.None? <==> forall p :: p in old(rows) ==> p.userId != userId
      ensures r.Some? ==> exists p :: p in old(rows) && p.userId == userId && r.value == p.id
      ensures GetByUserId(userId).None?
    {
      var found := GetByUserId(userId);
      FilterPairwise(rows, (p: ProfileRow) => p.userId != userId, (a: ProfileRow, b: ProfileRow) => a.id < b.id);
      FilterPairwise(rows, (p: ProfileRow) => p.userId != userId, (a: ProfileRow, b: ProfileRow) => a.userId != b.userId);
      rows := Filter(rows, (p: ProfileRow) => p.userId != userId);
      r := if found.Some? then Some(found.value.id) else None;
    }
  }

  /** After the overwrite, looking the user up finds the same row as
      before, now holding the new answers and marked complete. */
  lemma OverwriteFinds(rows: seq<ProfileRow>, userId: int, answers: Answers, previous: ProfileRow)
    requires Find(rows, (p: ProfileRow) => p.userId == userId) == Some(previous)
    ensures Find(Overwrite(rows, userId, answers), (p: ProfileRow) => p.userId == userId)
              == Some(previous.(answers := answers, onboardingCompleted := true))
  {
    var k := FindIndex(rows, (p: ProfileRow) => p.userId == userId);
    var rows' := Overwrite(rows, userId, answers);
    var k' := FindIndex(rows', (p: ProfileRow) => p.userId == userId);
    assert rows'[k].userId == userId;
    assert forall j :: 0 <= j < k ==> rows'[j].userId == rows[j].userId;
    assert k' == k;
  }

  /** Completing onboarding twice keeps one profile, holding the second
      answers; answers left out the second time become NULL. */
  method SubmitTwice(t: ProfileTable, userId: int, first: Answers, second: Answers)
      returns (r: ProfileRow)
    requires t.Valid()
    modifies t
    ensures t.Valid()
    ensures t.GetByUserId(userId) == Some(r) && r.answers == second && t.IsOnboardingCompleted(userId)
    ensures second.industry.None? ==> r.answers.industry.None?
  {
    var r1 := t.CreateOrUpdateProfile(userId, first);
    r := t.CreateOrUpdateProfile(userId, second);
  }
}
