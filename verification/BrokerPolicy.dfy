/** The text of the onboarding policy: which roles it names, when it is full, which roles it may name. */
module BrokerPolicy {
  import opened Options
  import opened Text
  import opened Sums
  import opened Broker

  // --- Reading the text back -----------------------------------------------------------------

  /** The characters before the next quote, or all of them. */
  function Unquoted(s: string): (n: nat)
    ensures n <= |s| && (forall i :: 0 <= i < n ==> s[i] != '"') && (n < |s| ==> s[n] == '"')
  {
    if s == "" || s[0] == '"' then 0 else 1 + Unquoted(s[1..])
  }

  /** The names of a list of quoted names separated by commas. */
  function Names(text: string): Option<seq<string>>
    decreases |text|
  {
    if text == "" then Some([])
    else if text[0] != '"' || Unquoted(text[1..]) + 1 >= |text| then None
    else
      var n := Unquoted(text[1..]) + 1;
      var rest := text[n + 1..];
      if rest == "" then Some([text[1..n]])
      else if rest[0] != ',' || |rest| == 1 then None
      else
        var more := Names(rest[1..]);
        if more.None? then None else Some([text[1..n]] + more.value)
  }

  /** The roles a policy text names: its head, a list of names, its tail. */
  function ReadDocument(text: string): Option<seq<Role>> {
    if |HEAD| + |TAIL| <= |text| && text[..|HEAD|] == HEAD && text[|text| - |TAIL|..] == TAIL
    then Names(text[|HEAD|..|text| - |TAIL|])
    else None
  }

  lemma {:induction false} UnquotedName(r: string, after: string)
    requires '"' !in r
    ensures Unquoted(r + ['"'] + after) == |r|
  {
    var s := r + ['"'] + after;
    if r != "" {
      assert s[0] == r[0] && r[0] in r;
      assert s[1..] == r[1..] + ['"'] + after;
      UnquotedName(r[1..], after);
    }
  }

  /** One name of a list, and what comes after its comma. */
  lemma NamesNext(r: string, after: string)
    requires '"' !in r && (after == "" || (after[0] == ',' && |after| > 1))
    ensures
      var text := ['"'] + r + ['"'] + after;
      Names(text) == if after == "" then Some([r])
                     else if Names(after[1..]).None? then None
                     else Some([r] + Names(after[1..]).value)
  {
    hide Unquoted;
    var text := ['"'] + r + ['"'] + after;
    UnquotedName(r, after);
    assert text[1..] == r + ['"'] + after;
    assert text[1..|r| + 1] == r && text[|r| + 2..] == after;
  }

  lemma {:induction false} NamesQuoted(roles: seq<Role>)
    requires forall r :: r in roles ==> '"' !in r
    ensures Names(Quoted(roles)) == Some(roles)
  {
    hide Names;
    if |roles| > 1 {
      var after := "," + Quoted(roles[1..]);
      assert Quoted(roles) == ['"'] + roles[0] + ['"'] + after && after[1..] == Quoted(roles[1..]) && |after| > 1;
      NamesNext(roles[0], after);
      NamesQuoted(roles[1..]);
      assert roles == [roles[0]] + roles[1..];
    } else if roles != [] {
      assert Quoted(roles) == ['"'] + roles[0] + ['"'] + "" && roles == [roles[0]];
      NamesNext(roles[0], "");
    } else {
      NoNames();
    }
  }

  lemma NoNames()
    ensures Names("") == Some([])
  {
  }

  lemma {:induction false} PathQuoteless(s: string)
    requires RolePath(s)
    ensures '"' !in s
    decreases |s|
  {
    var n := FirstSegment(s);
    AtSlash(s);
    if n < |s| {
      PathQuoteless(s[n + 1..]);
      assert s == s[..n] + ['/'] + s[n + 1..];
    }
  }

  lemma {:induction false} AtSlash(s: string)
    ensures FirstSegment(s) < |s| ==> s[FirstSegment(s)] == '/'
  {
    if s != "" && s[0] != '/' {
      AtSlash(s[1..]);
    }
  }

  predicate Digits(s: string) {
    forall c :: c in s ==> '0' <= c <= '9'
  }

  /** The four parts of a valid role. */
  lemma RoleParts(v: Role)
    requires ValidRole(v)
    ensures |v| >= 46 && v == "arn:aws:iam::" + v[13..25] + ":role/BillingConsole/" + v[46..]
    ensures Digits(v[13..25]) && RolePath(v[46..]) && 16 + |v[46..]| - LastSegment(v[46..]) <= 512 && |v| <= 610
  {
    hide RolePath, LastSegment;
    assert |PARTITION| == 13 && |ROLE_PATH| == 21 && v == v[..13] + v[13..25] + v[25..46] + v[46..];
    assert forall i :: 0 <= i < 12 ==> v[13..25][i] == v[13 + i];
  }

  lemma RoleOfParts(account: string, path: string)
    requires |account| == 12 && Digits(account) && RolePath(path) && 16 + |path| - LastSegment(path) <= 512 && |path| <= 564
    ensures ValidRole("arn:aws:iam::" + account + ":role/BillingConsole/" + path)
  {
    hide RolePath, LastSegment;
    var v := "arn:aws:iam::" + account + ":role/BillingConsole/" + path;
    assert |PARTITION| == 13 && |ROLE_PATH| == 21;
    assert v[..13] == PARTITION && v[13..25] == account && v[25..46] == ROLE_PATH && v[46..] == path;
    assert forall i :: 13 <= i < 25 ==> v[i] == account[i - 13] && account[i - 13] in account;
  }

  lemma RoleQuoteless(v: Role)
    requires ValidRole(v)
    ensures '"' !in v
  {
    RoleParts(v);
    hide RolePath, LastSegment, ValidRole;
    PathQuoteless(v[46..]);
    assert '"' !in "arn:aws:iam::" && '"' !in ":role/BillingConsole/" && '"' !in v[13..25];
  }

  /** The policy names every role of the set once, in ascending order, and no other. */
  lemma DocumentNamesRoles(roles: set<Role>)
    requires forall r :: r in roles ==> ValidRole(r)
    ensures ReadDocument(Document(roles)) == Some(Sorted(roles))
    ensures forall other: set<Role> :: Document(other) == Document(roles) && (forall r :: r in other ==> ValidRole(r)) ==> other == roles
  {
    DocumentRead(roles);
    forall other: set<Role> | Document(other) == Document(roles) && forall r :: r in other ==> ValidRole(r)
      ensures other == roles
    {
      DocumentRead(other);
      hide ValidRole, Document, ReadDocument;
      assert forall r :: r in roles <==> r in Sorted(other);
    }
  }

  lemma DocumentRead(roles: set<Role>)
    requires forall r :: r in roles ==> ValidRole(r)
    ensures ReadDocument(Document(roles)) == Some(Sorted(roles))
  {
    hide ValidRole, Names, Quoted;
    forall r | r in Sorted(roles)
      ensures '"' !in r
    {
      RoleQuoteless(r);
    }
    NamesQuoted(Sorted(roles));
    Framed(Quoted(Sorted(roles)));
  }

  lemma Framed(list: string)
    ensures ReadDocument(HEAD + list + TAIL) == Names(list)
  {
    hide Names, HEAD, TAIL;
    var text := HEAD + list + TAIL;
    assert text[..|HEAD|] == HEAD && text[|text| - |TAIL|..] == TAIL && text[|HEAD|..|text| - |TAIL|] == list;
  }

  // --- Size ----------------------------------------------------------------------------------

  /** What one more role costs: its name, two quotes and a comma. */
  function Room(r: Role): int {
    |r| + 3
  }

  lemma {:induction false} QuotedSize(roles: seq<Role>)
    requires roles != [] && forall i, j :: 0 <= i < j < |roles| ==> roles[i] != roles[j]
    ensures |Quoted(roles)| == Sum((set r | r in roles), Room) - 1
  {
    var all, rest := set r | r in roles, set r | r in roles[1..];
    assert roles == [roles[0]] + roles[1..];
    SumRemove(all, Room, roles[0]);
    assert all - {roles[0]} == rest;
    if |roles| > 1 {
      QuotedSize(roles[1..]);
    }
  }

  /** The exact length of the policy, and so the exact capacity. */
  lemma CapacityExactly(roles: set<Role>)
    requires roles != {}
    ensures |Document(roles)| == 136 + Sum(roles, Room)
    ensures Fits(roles) <==> Sum(roles, Room) <= 3960
  {
    var names := Sorted(roles);
    assert forall i :: 0 <= i < |names| ==> names[i] in roles;
    forall i, j | 0 <= i < j < |names|
      ensures names[i] != names[j]
    {
      Irreflexive(names[i]);
    }
    QuotedSize(names);
    assert (set r | r in names) == roles;
  }

  lemma {:induction false} LongRoles(roles: set<Role>)
    requires forall r :: r in roles ==> |r| >= 590
    ensures Sum(roles, Room) >= 593 * |roles|
  {
    if roles != {} {
      var r :| r in roles;
      SumRemove(roles, Room, r);
      LongRoles(roles - {r});
    }
  }

  /** Seven roles of 590 characters do not fit. */
  lemma SevenLongRolesDoNotFit(roles: set<Role>)
    requires |roles| >= 7 && forall r :: r in roles ==> |r| >= 590
    ensures !Fits(roles)
  {
    LongRoles(roles);
    hide Fits, Document;
    CapacityExactly(roles);
  }

  // --- Which roles a policy may name -------------------------------------------------------------

  /** Names consist of ASCII letters, digits and seven signs. */
  lemma NameCharExactly(c: char)
    ensures
      var code := c as int;
      NameChar(c) <==> 65 <= code <= 90 || 97 <= code <= 122 || 48 <= code <= 57 || code in {43, 44, 45, 46, 61, 64, 95}
  {
  }

  predicate Name(s: string) {
    s != "" && forall c :: c in s ==> NameChar(c)
  }

  function Directories(names: seq<string>): string {
    if names == [] then "" else names[0] + "/" + Directories(names[1..])
  }

  /** A role of an account under the console's path, in any directories below it. */
  ghost predicate ConsoleRole(v: string, account: string, directories: seq<string>, name: string) {
    && v == "arn:aws:iam::" + account + ":role/BillingConsole/" + Directories(directories) + name
    && |account| == 12 && Digits(account)
    && (forall d :: d in directories ==> Name(d)) && Name(name)
    && |name| <= 64 && |"/BillingConsole/" + Directories(directories)| <= 512 && |v| <= 610
  }

  lemma {:induction false} FirstOf(name: string, rest: string)
    requires Name(name)
    ensures FirstSegment(name) == |name| && FirstSegment(name + "/" + rest) == |name|
  {
    var s := name + "/" + rest;
    assert s[0] == name[0] && name[0] in name;
    assert s[1..] == name[1..] + "/" + rest;
    if |name| > 1 {
      FirstOf(name[1..], rest);
    } else {
      assert s[1] == '/';
    }
  }

  lemma {:induction false} PathRead(directories: seq<string>, name: string)
    requires (forall d :: d in directories ==> Name(d)) && Name(name) && |name| <= 64
    ensures RolePath(Directories(directories) + name) && LastSegment(Directories(directories) + name) == |name|
  {
    var s := Directories(directories) + name;
    if directories == [] {
      assert s == name;
      FirstOf(name, "");
    } else {
      var d, rest := directories[0], Directories(directories[1..]) + name;
      assert s == d + "/" + rest && s[|d| + 1..] == rest && d in directories;
      FirstOf(d, rest);
      PathRead(directories[1..], name);
    }
  }

  lemma {:induction false} PathParts(s: string) returns (directories: seq<string>, name: string)
    requires RolePath(s)
    ensures s == Directories(directories) + name && (forall d :: d in directories ==> Name(d)) && Name(name)
    ensures |name| == LastSegment(s) <= 64
    decreases |s|
  {
    hide NameChar, FirstSegment;
    var n := FirstSegment(s);
    AtSlash(s);
    assert Name(s[..n]);
    if n == |s| {
      assert s[..n] == s;
      directories, name := [], s;
    } else {
      var more: seq<string>;
      more, name := PathParts(s[n + 1..]);
      directories := [s[..n]] + more;
      hide RolePath, LastSegment, Name;
      assert s == s[..n] + "/" + s[n + 1..] && directories[1..] == more;
    }
  }

  lemma ValidRoleParts(v: string) returns (account: string, directories: seq<string>, name: string)
    requires ValidRole(v)
    ensures ConsoleRole(v, account, directories, name)
  {
    RoleParts(v);
    account := v[13..25];
    hide RolePath, LastSegment, ValidRole, Name, Digits, Directories;
    directories, name := PathParts(v[46..]);
    assert v == "arn:aws:iam::" + account + ":role/BillingConsole/" + (Directories(directories) + name);
  }

  /** The check accepts exactly these roles. */
  lemma ValidRoleExactly(v: string)
    ensures ValidRole(v) <==> exists account, directories, name :: ConsoleRole(v, account, directories, name)
  {
    hide ConsoleRole, ValidRole;
    if ValidRole(v) {
      var account, directories, name := ValidRoleParts(v);
    }
    if account, directories, name :| ConsoleRole(v, account, directories, name) {
      ConsoleRoleValid(v, account, directories, name);
    }
  }

  lemma ConsoleRoleValid(v: string, account: string, directories: seq<string>, name: string)
    requires ConsoleRole(v, account, directories, name)
    ensures ValidRole(v)
  {
    hide RolePath, LastSegment, ValidRole, Name, Digits, Directories;
    var path := Directories(directories) + name;
    PathRead(directories, name);
    assert v == "arn:aws:iam::" + account + ":role/BillingConsole/" + path;
    RoleOfParts(account, path);
  }

  /** The sets that both readers accept: not empty, of roles of the console, within the capacity. */
  lemma CanonicalExactly(roles: set<Role>)
    ensures Canonical(roles) <==>
            && roles != {} && Sum(roles, Room) <= 3960
            && forall r :: r in roles ==> exists account, directories, name :: ConsoleRole(r, account, directories, name)
  {
    forall r | r in roles
      ensures ValidRole(r) <==> exists account, directories, name :: ConsoleRole(r, account, directories, name)
    {
      ValidRoleExactly(r);
    }
    if roles != {} {
      CapacityExactly(roles);
    }
    hide ValidRole, Fits, ConsoleRole;
  }

  // --- A full policy -----------------------------------------------------------------------------

  function Repeat(c: char, n: nat): (s: string)
    ensures |s| == n && forall d :: d in s ==> d == c
  {
    seq(n, _ => c)
  }

  /** A role of 606 characters, the longest there is. */
  function LongRole(digit: char): Role {
    "arn:aws:iam::" + Repeat(digit, 12) + ":role/BillingConsole/" + Directories([Repeat('a', 495)]) + Repeat('b', 64)
  }

  lemma LongRoleValid(digit: char)
    requires '0' <= digit <= '9'
    ensures ValidRole(LongRole(digit)) && |LongRole(digit)| == 606 && LongRole(digit)[13] == digit
  {
    assert Directories([Repeat('a', 495)]) == Repeat('a', 495) + "/";
    ConsoleRoleValid(LongRole(digit), Repeat(digit, 12), [Repeat('a', 495)], Repeat('b', 64));
  }

  lemma DistinctLongRoles()
    ensures
      var first := {LongRole('1'), LongRole('2'), LongRole('3'), LongRole('4'), LongRole('5'), LongRole('6')};
      |first| == 6 && LongRole('7') !in first && forall r :: r in first + {LongRole('7')} ==> ValidRole(r) && |r| == 606
  {
    hide ValidRole, LongRole;
    forall c: char | '0' <= c <= '9'
      ensures ValidRole(LongRole(c)) && |LongRole(c)| == 606 && LongRole(c)[13] == c
    {
      LongRoleValid(c);
    }
  }

  /** Six of the longest roles can be stored; a call for a seventh is refused before anything is
      written, whatever of them the policy shows. */
  lemma CapacityIsReached(existing: set<Role>, version: nat)
    requires version >= 1
    ensures
      var first := {LongRole('1'), LongRole('2'), LongRole('3'), LongRole('4'), LongRole('5'), LongRole('6')};
      && Canonical(first) && ValidRole(LongRole('7'))
      && (existing <= first ==> Decide(LongRole('7'), existing, Some(Item(first, version))) == Ended(Refused(OverCapacity)))
  {
    DistinctLongRoles();
    hide ValidRole, LongRole, Fits;
    var first := {LongRole('1'), LongRole('2'), LongRole('3'), LongRole('4'), LongRole('5'), LongRole('6')};
    SixRolesFit(first);
    SevenLongRolesDoNotFit(first + {LongRole('7')});
  }
}
