/** The session claims as next-auth hands them to the app (the shapes
    declared in src/types/next-auth.d.ts): a session and a JWT both carry an
    optional role string; the session also carries an optional profile. */
module Claims {
  import opened Common

  /** The four role names the app knows, plus any other string a token may carry. */
  datatype Role = NormalUser | Student | SocialMediaManager | Developer | Other(name: string)

  const NormalUserName := "NormalUser"
  const StudentName := "Student"
  const SocialMediaManagerName := "SocialMediaManager"
  const DeveloperName := "Developer"

  predicate IsKnownName(s: string) {
    s == NormalUserName || s == StudentName || s == SocialMediaManagerName || s == DeveloperName
  }

  function NameOf(r: Role): string {
    match r
    case NormalUser => NormalUserName
    case Student => StudentName
    case SocialMediaManager => SocialMediaManagerName
    case Developer => DeveloperName
    case Other(name) => name
  }

  /** The `switch` on a role string: the four names, anything else is Other. */
  function RoleOf(s: string): (r: Role)
    ensures NameOf(r) == s
    ensures r.Other? <==> !IsKnownName(s)
  {
    if s == NormalUserName then NormalUser
    else if s == StudentName then Student
    else if s == SocialMediaManagerName then SocialMediaManager
    else if s == DeveloperName then Developer
    else Other(s)
  }

  /** An Other role is one whose name is none of the four. */
  predicate WellFormed(r: Role) {
    r.Other? ==> !IsKnownName(r.name)
  }

  lemma RoleOfNameOf(r: Role)
    requires WellFormed(r)
    ensures RoleOf(NameOf(r)) == r
  {
  }

  /** `profile?: any`; of it the app reads only `enrolledCourses`, a list of course ids. */
  datatype Profile = Profile(enrolledCourses: Option<seq<int>>)

  /** next-auth `Session` with the app's extra claims. */
  datatype Session = Session(role: Option<string>, profile: Option<Profile>)

  /** next-auth `JWT` as the middleware decodes it. */
  datatype Token = Token(role: Option<string>)

  /** True iff `role` is truthy in JavaScript: present and not the empty string. */
  predicate HasRoleClaim(role: Option<string>) {
    role.Some? && role.value != ""
  }

  /** `role || 'NormalUser'`: the claimed role when it is a non-empty string,
      'NormalUser' otherwise. */
  function EffectiveRole(role: Option<string>): (r: string)
    ensures r != ""
    ensures HasRoleClaim(role) ==> r == role.value
    ensures !HasRoleClaim(role) ==> r == NormalUserName
  {
    if HasRoleClaim(role) then role.value else NormalUserName
  }
}
