/** The client dashboard's header: the name it greets, the greeting for the
    hour and the company line. */
module Dashboard {
  import opened Wrappers
  import opened Text
  import opened Auth
  import opened RouteGuard

  /** `user?.hrName`: only a corporate record has one. */
  function HrNameOf(user: Option<User>): string {
    if user.Some? && user.value.Corporate? then user.value.hrName else ""
  }

  /** `user?.name`. */
  function NameOf(user: Option<User>): string {
    if user.Some? then user.value.name else ""
  }

  /** `user?.companyName`: only a corporate record has one. */
  function CompanyNameOf(user: Option<User>): string {
    if user.Some? && user.value.Corporate? then user.value.companyName else ""
  }

  /** `user?.designation`: only a corporate record has one. */
  function DesignationOf(user: Option<User>): string {
    if user.Some? && user.value.Corporate? then user.value.designation else ""
  }

  /** `displayName`: the HR name, else the name, else the company name for a
      corporate session and "Client" for any other. */
  function DisplayName(user: Option<User>, isCorporate: bool): (r: string)
    ensures HrNameOf(user) != "" ==> r == HrNameOf(user)
    ensures HrNameOf(user) == "" && NameOf(user) != "" ==> r == NameOf(user)
    ensures HrNameOf(user) == "" == NameOf(user) ==> r == (if isCorporate then CompanyNameOf(user) else "Client")
    ensures r == "" ==> isCorporate && HrNameOf(user) == "" && NameOf(user) == "" && CompanyNameOf(user) == ""
  {
    OrElse(HrNameOf(user), OrElse(NameOf(user), if isCorporate then CompanyNameOf(user) else "Client"))
  }

  /** `timedGreeting` for the hour of the day. */
  function Greeting(hour: int): (r: string)
    ensures r == "Good night" <==> hour < 5
    ensures r == "Good morning" <==> 5 <= hour < 12
    ensures r == "Good afternoon" <==> 12 <= hour < 17
    ensures r == "Good evening" <==> 17 <= hour
  {
    if hour < 5 then "Good night"
    else if hour < 12 then "Good morning"
    else if hour < 17 then "Good afternoon"
    else "Good evening"
  }

  /** The heading: "Hello", with ", name" only for a non-empty name. */
  function Heading(displayName: string): (r: string)
    ensures |r| >= 5 && r[..5] == "Hello"
    ensures displayName == "" <==> r == "Hello"
    ensures displayName != "" ==> r[5..] == ", " + displayName
  {
    "Hello" + (if displayName != "" then ", " + displayName else "")
  }

  /** Every identity the dashboard can be shown to has a name: the guard admits
      only a corporate role, and a normalised corporate record always carries a
      display name, so the heading always greets someone by name. */
  lemma {:induction false} CorporateHeadingNamed(isHydrating: bool, d: AuthData, a: RawAccount)
    requires Decide(isHydrating, d.IsAuthenticated(), d.IsCorporate(), ClientRouteProps) == Render
    requires d.user == Some(CleanCorp(a)) || d.user == Some(MinimalCorp)
    ensures d.IsCorporate()
    ensures DisplayName(d.user, d.IsCorporate()) != ""
    ensures Heading(DisplayName(d.user, d.IsCorporate())) != "Hello"
  {
    var s := DisplayName(d.user, d.IsCorporate());
    assert NameOf(d.user) != "";
    assert s != "";
  }

  /** A normalised internal user is greeted by its normalised name. */
  lemma InternalGreetedByName(raw: RawUser, isCorporate: bool)
    ensures DisplayName(Some(CleanUser(raw)), isCorporate) == CleanUser(raw).name
  {
  }

  /** The `" • "` between company and designation, as the page means it. */
  const Separator := " • "

  /** The company line: the company name or "Your company", then the
      designation after a bullet when there is one. */
  function CompanyLine(user: Option<User>): (r: string)
    ensures DesignationOf(user) == "" ==> r == OrElse(CompanyNameOf(user), "Your company")
    ensures DesignationOf(user) != "" ==> r == OrElse(CompanyNameOf(user), "Your company") + Separator + DesignationOf(user)
  {
    CompanyLineWith(user, Separator)
  }

  function CompanyLineWith(user: Option<User>, sep: string): string {
    OrElse(CompanyNameOf(user), "Your company") + (if DesignationOf(user) != "" then sep + DesignationOf(user) else "")
  }

  /** The separator as the source file spells it: the three characters that
      the bullet's UTF-8 bytes read as in Windows-1252. */
  const WrittenSeparator := " â€¢ "

  /** The company line as the page draws it. */
  function WrittenCompanyLine(user: Option<User>): (r: string)
    ensures DesignationOf(user) != "" ==> r == OrElse(CompanyNameOf(user), "Your company") + WrittenSeparator + DesignationOf(user)
  {
    CompanyLineWith(user, WrittenSeparator)
  }

  /** The UTF-8 bytes of a character of the three-byte range. */
  function Utf8Of(c: char): (b: seq<nat>)
    requires 0x800 <= c as int < 0x10000
    ensures |b| == 3 && forall i :: 0 <= i < 3 ==> b[i] < 256
  {
    var n := c as int;
    [0xE0 + n / 4096, 0x80 + (n / 64) % 64, 0x80 + n % 64]
  }

  /** Windows-1252 for the bytes 0x80 to 0x9F; the five bytes it leaves
      undefined keep their control character, as browsers decode them. */
  const Cp1252High: seq<char> := [
    '€', '\U{81}', '‚', 'ƒ', '„', '…', '†', '‡',
    'ˆ', '‰', 'Š', '‹', 'Œ', '\U{8D}', 'Ž', '\U{8F}',
    '\U{90}', '‘', '’', '“', '”', '•', '–', '—',
    '˜', '™', 'š', '›', 'œ', '\U{9D}', 'ž', 'Ÿ']

  /** One byte read as Windows-1252. */
  function Cp1252(b: nat): (c: char)
    requires b < 256
    ensures !(0x80 <= b < 0xA0) ==> c as int == b
  {
    if 0x80 <= b < 0xA0 then Cp1252High[b - 0x80] else b as char
  }

  /** The written separator is the bullet's UTF-8 encoding decoded as
      Windows-1252, and it differs from the bullet: a corporate user with a
      designation sees those three characters in place of the bullet. */
  lemma SeparatorMojibake(u: User)
    requires u.Corporate? && u.designation != ""
    ensures var b := Utf8Of('•');
      WrittenSeparator == [' ', Cp1252(b[0]), Cp1252(b[1]), Cp1252(b[2]), ' ']
    ensures WrittenCompanyLine(Some(u)) != CompanyLine(Some(u))
  {
    var b := Utf8Of('•');
    assert b == [0xE2, 0x80, 0xA2];
    var pre := OrElse(CompanyNameOf(Some(u)), "Your company");
    var w := WrittenCompanyLine(Some(u));
    var c := CompanyLine(Some(u));
    assert w[|pre| + 2] == '€';
    assert c[|pre| + 2] == ' ';
  }

  /** The corrected line carries the designation after exactly one bullet
      between single spaces, and falls back to "Your company". */
  lemma CompanyLineShape(user: Option<User>)
    requires DesignationOf(user) != ""
    ensures var r := CompanyLine(user);
      var head := OrElse(CompanyNameOf(user), "Your company");
      && |r| == |head| + 3 + |DesignationOf(user)|
      && r[|head|..|head| + 3] == [' ', '•', ' ']
      && r[|head| + 3..] == DesignationOf(user)
      && (CompanyNameOf(user) == "" ==> r[..|head|] == "Your company")
  {
    var r := CompanyLine(user);
    var head := OrElse(CompanyNameOf(user), "Your company");
    assert r == head + Separator + DesignationOf(user);
    assert r[|head|..|head| + 3] == Separator;
  }
}
