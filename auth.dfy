/** POST /api/login: a linear lookup of plaintext credentials. */
module Auth {
  import opened Values

  datatype User = User(id: string, password: string, role: string, name: string, agencyCode: Option<string>)

  /** What a successful login returns about the user: everything but the
      password. */
  datatype Profile = Profile(id: string, name: string, role: string, agencyCode: Option<string>)

  function ProfileOf(u: User): Profile {
    Profile(u.id, u.name, u.role, u.agencyCode)
  }

  /** `u.id === username && u.password === password`; an absent request key
      matches no user. */
  predicate Accepts(u: User, username: Option<string>, password: Option<string>) {
    username == Some(u.id) && password == Some(u.password)
  }

  /** The login handler: the profile of the first user whose id and password
      both match, or None (a 401) when no user matches. */
  function Login(users: seq<User>, username: Option<string>, password: Option<string>): (r: Option<Profile>)
    ensures r.None? <==> forall j :: 0 <= j < |users| ==> !Accepts(users[j], username, password)
    ensures r.Some? ==> exists i :: 0 <= i < |users| && Accepts(users[i], username, password) &&
                                     r.value == ProfileOf(users[i]) &&
                                     forall j :: 0 <= j < i ==> !Accepts(users[j], username, password)
  {
    if users == [] then None
    else if Accepts(users[0], username, password) then Some(ProfileOf(users[0]))
    else
      var r := Login(users[1..], username, password);
      assert r.Some? ==> exists i :: 0 < i < |users| && Accepts(users[i], username, password) &&
                                     r.value == ProfileOf(users[i]) &&
                                     forall j :: 0 <= j < i ==> !Accepts(users[j], username, password);
      r
  }

  /** The four accounts seeded on first start. */
  const SEED_USERS: seq<User> := [
    User("admin", "AiComp@2025!Admin", "admin", "管理者", None),
    User("staff", "AiComp@2025!Staff", "staff", "スタッフ", None),
    User("agency_a", "AgencyA@2025!", "agency", "A代理店", Some("AIC00001")),
    User("agency_b", "AgencyB@2025!", "agency", "B代理店", Some("AIC00002"))
  ]

  /** When ids are unique, a user logs in with exactly their own password. */
  lemma LoginWithUniqueIds(users: seq<User>, k: nat, password: Option<string>)
    requires k < |users|
    requires forall i, j :: 0 <= i < j < |users| ==> users[i].id != users[j].id
    ensures Login(users, Some(users[k].id), password) ==
              if password == Some(users[k].password) then Some(ProfileOf(users[k])) else None
  {
  }

  /** Each seeded account logs in with its own password and receives its
      role and agency code; a wrong password or an unknown id is refused. */
  lemma SeedLogins(k: nat, username: Option<string>, password: Option<string>)
    requires k < |SEED_USERS|
    ensures (forall j :: 0 <= j < |SEED_USERS| ==> username != Some(SEED_USERS[j].id)) ==>
              Login(SEED_USERS, username, password).None?
    ensures Login(SEED_USERS, Some(SEED_USERS[k].id), password) ==
              if password == Some(SEED_USERS[k].password) then Some(ProfileOf(SEED_USERS[k])) else None
    ensures Login(SEED_USERS, Some("agency_a"), Some("AgencyA@2025!")) ==
              Some(Profile("agency_a", "A代理店", "agency", Some("AIC00001")))
  {
    LoginWithUniqueIds(SEED_USERS, k, password);
    LoginWithUniqueIds(SEED_USERS, 2, Some("AgencyA@2025!"));
  }
}
