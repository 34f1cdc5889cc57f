/** The string helpers of the scaffolding utilities: capitalising, humanizing
    field and class names, and title case. Case mapping covers the ASCII
    letters, the only ones the library's regular expressions match. */
module Naming {
  import opened Values

  predicate IsLower(c: char) { 'a' <= c <= 'z' }
  predicate IsUpper(c: char) { 'A' <= c <= 'Z' }

  function Upper(c: char): (u: char)
    ensures IsLower(c) ==> IsUpper(u) && u as int == c as int - 32
    ensures !IsLower(c) ==> u == c
  {
    if IsLower(c) then (c as int - 32) as char else c
  }

  function Lower(c: char): (l: char)
    ensures IsUpper(c) ==> IsLower(l) && l as int == c as int + 32
    ensures !IsUpper(c) ==> l == c
  {
    if IsUpper(c) then (c as int + 32) as char else c
  }

  // ---------------------------------------------------------------------------
  // toFirstUpper

  /** `toFirstUpper` on a string. The empty string has no `str[0]`, so
      `str[0].toUpperCase()` crashes: that case is an error. */
  function FirstUpper(s: string): (r: Result<string>)
    ensures s == [] <==> r.Err?
    ensures r.Ok? ==> |r.value| == |s| && r.value[0] == Upper(s[0]) && r.value[1..] == s[1..]
  {
    if s == [] then Err(TypeError)
    else Ok([Upper(s[0])] + s[1..])
  }

  /** `toFirstUpper` on any value: anything that is not a string comes back as it is. */
  function ToFirstUpper(v: Value): (r: Result<Value>)
    ensures !v.Str? ==> r == Ok(v)
    ensures v.Str? && v.s == [] ==> r == Err(TypeError)
    ensures v.Str? && v.s != [] ==>
      (r.Ok? && r.value.Str? && |r.value.s| == |v.s| && r.value.s[0] == Upper(v.s[0]) && r.value.s[1..] == v.s[1..])
  {
    if !v.Str? then Ok(v)
    else match FirstUpper(v.s)
      case Ok(u) => Ok(Str(u))
      case Err(e) => Err(e)
  }

  // ---------------------------------------------------------------------------
  // humanize: three global regular-expression replacements, then toFirstUpper

  /** `str.replace(/_id/g, '')`: one left-to-right scan deleting each
      non-overlapping `_id`. */
  function DeleteIdMarkers(s: string): (r: string)
    ensures |r| <= |s|
  {
    if |s| >= 3 && s[0] == '_' && s[1] == 'i' && s[2] == 'd' then DeleteIdMarkers(s[3..])
    else if s == [] then []
    else [s[0]] + DeleteIdMarkers(s[1..])
  }

  /** `str.replace(/_/g, ' ')`. */
  function UnderscoresToSpaces(s: string): (r: string)
    ensures |r| == |s|
    ensures forall i :: 0 <= i < |s| ==> r[i] == if s[i] == '_' then ' ' else s[i]
  {
    if s == [] then [] else [if s[0] == '_' then ' ' else s[0]] + UnderscoresToSpaces(s[1..])
  }

  /** `str.replace(/([a-z])([A-Z])/g, first + " " + second.toLowerCase())`:
      a match consumes both letters, so the scan resumes after the upper-case one. */
  function SplitCamelCase(s: string): (r: string)
    ensures |r| >= |s|
  {
    if |s| >= 2 && IsLower(s[0]) && IsUpper(s[1]) then [s[0], ' ', Lower(s[1])] + SplitCamelCase(s[2..])
    else if s == [] then []
    else [s[0]] + SplitCamelCase(s[1..])
  }

  /** `humanize`. It fails exactly when nothing is left after the deletions. */
  function Humanize(s: string): (r: Result<string>)
    ensures r.Err? <==> DeleteIdMarkers(s) == []
  {
    var noIds := DeleteIdMarkers(s);
    var spaced := UnderscoresToSpaces(noIds);
    var words := SplitCamelCase(spaced);
    assert |words| >= |noIds|;
    assert noIds != [] ==> words != [];
    FirstUpper(words)
  }

  /** A string with an ASCII lower-case letter directly followed by an
      upper-case one. */
  predicate HasCamelBoundary(s: string)
  {
    exists i :: 0 <= i < |s| - 1 && IsLower(s[i]) && IsUpper(s[i + 1])
  }

  lemma {:induction false} DeleteIdMarkersKeepsNoUnderscore(s: string)
    requires '_' !in s
    ensures DeleteIdMarkers(s) == s
  {
    if s != [] {
      assert s[0] != '_';
      assert '_' !in s[1..] by { forall c | c in s[1..] ensures c != '_' { assert c in s; } }
      DeleteIdMarkersKeepsNoUnderscore(s[1..]);
      assert s == [s[0]] + s[1..];
    }
  }

  /** A string without `_i` has no `_id` marker to delete. */
  lemma {:induction false} DeleteIdMarkersWithoutMarkers(s: string)
    requires forall i :: 0 <= i < |s| - 1 ==> !(s[i] == '_' && s[i + 1] == 'i')
    ensures DeleteIdMarkers(s) == s
  {
    if s != [] {
      if |s| >= 2 {
        assert !(s[0] == '_' && s[1] == 'i');
      }
      forall i | 0 <= i < |s[1..]| - 1
        ensures !(s[1..][i] == '_' && s[1..][i + 1] == 'i')
      {
        assert s[1..][i] == s[i + 1] && s[1..][i + 1] == s[i + 2];
      }
      DeleteIdMarkersWithoutMarkers(s[1..]);
      assert s == [s[0]] + s[1..];
    }
  }

  lemma UnderscoresToSpacesKeepsNoUnderscore(s: string)
    requires '_' !in s
    ensures UnderscoresToSpaces(s) == s
  {
    var r := UnderscoresToSpaces(s);
    forall i | 0 <= i < |s| ensures r[i] == s[i] {
      assert s[i] in s;
    }
  }

  lemma {:induction false} SplitCamelCaseIdentity(s: string)
    requires !HasCamelBoundary(s)
    ensures SplitCamelCase(s) == s
  {
    if s != [] {
      if |s| >= 2 {
        assert !(IsLower(s[0]) && IsUpper(s[1]));
      }
      forall i | 0 <= i < |s[1..]| - 1
        ensures !(IsLower(s[1..][i]) && IsUpper(s[1..][i + 1]))
      {
        assert s[1..][i] == s[i + 1] && s[1..][i + 1] == s[i + 2];
        assert !(IsLower(s[i + 1]) && IsUpper(s[i + 2]));
      }
      SplitCamelCaseIdentity(s[1..]);
      assert s == [s[0]] + s[1..];
    }
  }

  lemma {:induction false} SplitCamelCaseNoUnderscore(s: string)
    requires '_' !in s
    ensures '_' !in SplitCamelCase(s)
  {
    if |s| >= 2 && IsLower(s[0]) && IsUpper(s[1]) {
      assert '_' !in s[2..] by { forall c | c in s[2..] ensures c != '_' { assert c in s; } }
      SplitCamelCaseNoUnderscore(s[2..]);
      assert Lower(s[1]) != '_';
    } else if s != [] {
      assert '_' !in s[1..] by { forall c | c in s[1..] ensures c != '_' { assert c in s; } }
      SplitCamelCaseNoUnderscore(s[1..]);
    }
  }

  /** Every `_` is gone from a humanized string: `_id` markers are deleted
      and every remaining underscore became a space. */
  lemma HumanizeHasNoUnderscore(s: string)
    requires Humanize(s).Ok?
    ensures '_' !in Humanize(s).value
  {
    var spaced := UnderscoresToSpaces(DeleteIdMarkers(s));
    assert '_' !in spaced by {
      forall i | 0 <= i < |spaced| ensures spaced[i] != '_' { }
    }
    var words := SplitCamelCase(spaced);
    SplitCamelCaseNoUnderscore(spaced);
    var r := Humanize(s).value;
    assert r == [Upper(words[0])] + words[1..];
    forall c | c in r ensures c != '_' {
      if c != r[0] { assert c in words[1..]; assert c in words; }
    }
  }

  /** Without underscores and camel-case boundaries `humanize` only
      capitalises the first letter. */
  lemma HumanizeOfPlainText(s: string)
    requires '_' !in s && !HasCamelBoundary(s)
    ensures Humanize(s) == FirstUpper(s)
  {
    DeleteIdMarkersKeepsNoUnderscore(s);
    UnderscoresToSpacesKeepsNoUnderscore(s);
    SplitCamelCaseIdentity(s);
  }

  // ---------------------------------------------------------------------------
  // humanizeClassName

  /** `s.indexOf(c)`: the first position of `c`, or -1. */
  function IndexOf(s: string, c: char): (k: int)
    ensures -1 <= k < |s|
    ensures k == -1 <==> c !in s
    ensures k >= 0 ==> s[k] == c && c !in s[..k]
  {
    if s == [] then -1
    else if s[0] == c then 0
    else var k := IndexOf(s[1..], c); if k == -1 then -1 else k + 1
  }

  /** `s.lastIndexOf(c)`: the last position of `c`, or -1. */
  function LastIndexOf(s: string, c: char): (k: int)
    ensures -1 <= k < |s|
    ensures k == -1 <==> c !in s
    ensures k >= 0 ==> s[k] == c
    ensures forall j :: k < j < |s| ==> s[j] != c
  {
    if s == [] then -1
    else if s[|s| - 1] == c then |s| - 1
    else LastIndexOf(s[..|s| - 1], c)
  }

  /** `humanizeClassName`: the source tests `indexOf('.')` for truthiness, so
      the namespace is stripped unless the name STARTS with a dot (index 0);
      a name without a dot gives -1, which is truthy, and `substr(0)` keeps it whole. */
  function HumanizeClassName(className: string): Result<string>
  {
    if IndexOf(className, '.') != 0
    then Humanize(className[LastIndexOf(className, '.') + 1..])
    else Humanize(className)
  }

  /** The text after the last dot is what gets humanized, unless the name
      starts with a dot, in which case the whole name is. */
  lemma HumanizeClassNameTakesLastSegment(namespace: string, simple: string)
    requires '.' !in simple
    requires namespace != [] && namespace[0] != '.'
    ensures HumanizeClassName(namespace + "." + simple) == Humanize(simple)
  {
    var s := namespace + "." + simple;
    assert s[0] == namespace[0];
    var k := LastIndexOf(s, '.');
    assert s[|namespace|] == '.';
    forall j | |namespace| < j < |s| ensures s[j] != '.' {
      assert s[j] == simple[j - |namespace| - 1];
    }
    assert k == |namespace|;
    assert s[k + 1..] == simple;
    assert IndexOf(s, '.') != 0;
  }

  lemma HumanizeClassNameWithoutNamespace(className: string)
    requires '.' !in className
    ensures HumanizeClassName(className) == Humanize(className)
  {
    assert className[0..] == className;
  }

  lemma HumanizeClassNameLeadingDot(className: string)
    requires |className| > 0 && className[0] == '.'
    ensures HumanizeClassName(className) == Humanize(className)
  {
  }

  // ---------------------------------------------------------------------------
  // toTitle

  /** `str.replace(/ ([a-z])/g, ' ' + letter.toUpperCase())`. */
  function ToTitle(s: string): (r: string)
  {
    if |s| >= 2 && s[0] == ' ' && IsLower(s[1]) then [' ', Upper(s[1])] + ToTitle(s[2..])
    else if s == [] then []
    else [s[0]] + ToTitle(s[1..])
  }

  /** `toTitle` keeps the length and upper-cases exactly the lower-case
      letters that follow a space. */
  lemma {:induction false} ToTitlePointwise(s: string)
    ensures |ToTitle(s)| == |s|
    ensures forall i :: 0 <= i < |s| ==>
      ToTitle(s)[i] == if i > 0 && s[i - 1] == ' ' && IsLower(s[i]) then Upper(s[i]) else s[i]
  {
    if |s| >= 2 && s[0] == ' ' && IsLower(s[1]) {
      ToTitlePointwise(s[2..]);
      var r := ToTitle(s);
      forall i | 0 <= i < |s|
        ensures r[i] == if i > 0 && s[i - 1] == ' ' && IsLower(s[i]) then Upper(s[i]) else s[i]
      {
        if i >= 2 {
          assert r[i] == ToTitle(s[2..])[i - 2];
          assert s[2..][i - 2] == s[i];
          if i == 2 { assert s[1] != ' '; }
          if i >= 3 { assert s[2..][i - 3] == s[i - 1]; }
        }
      }
    } else if s != [] {
      ToTitlePointwise(s[1..]);
      var r := ToTitle(s);
      forall i | 0 <= i < |s|
        ensures r[i] == if i > 0 && s[i - 1] == ' ' && IsLower(s[i]) then Upper(s[i]) else s[i]
      {
        if i >= 1 {
          assert r[i] == ToTitle(s[1..])[i - 1];
          assert s[1..][i - 1] == s[i];
        }
        if i >= 2 { assert s[1..][i - 2] == s[i - 1]; }
      }
    }
  }

  // ---------------------------------------------------------------------------
  // Worked examples from the library's documentation and tests

  lemma FirstUpperOfCons(c: char, rest: string)
    ensures FirstUpper([c] + rest) == Ok([Upper(c)] + rest)
  {
    assert ([c] + rest)[1..] == rest;
  }

  lemma HumanizeUserId()
    ensures Humanize("user_id") == Ok("User")
  {
    assert DeleteIdMarkers("user_id") == "user";
    assert UnderscoresToSpaces("user") == "user";
    assert SplitCamelCase("user") == "user";
    assert Upper('u') == 'U';
    FirstUpperOfCons('u', "ser");
    assert "user" == ['u'] + "ser";
    assert "User" == ['U'] + "ser";
  }

  lemma DeleteIdMarkersUserName()
    ensures DeleteIdMarkers("user_name") == "user_name"
  {
    var s := "user_name";
    forall i | 0 <= i < |s| - 1 ensures !(s[i] == '_' && s[i + 1] == 'i') {
      if s[i] == '_' { assert i == 4; }
    }
    DeleteIdMarkersWithoutMarkers(s);
  }

  lemma SplitCamelCaseUserSpaceName()
    ensures SplitCamelCase("user name") == "user name"
  {
    var s := "user name";
    forall i | 0 <= i < |s| - 1 ensures !(IsLower(s[i]) && IsUpper(s[i + 1])) {
      assert !IsUpper(s[i + 1]);
    }
    SplitCamelCaseIdentity(s);
  }

  lemma SplitCamelCaseCons(c: char, rest: string)
    requires !(rest != [] && IsLower(c) && IsUpper(rest[0]))
    ensures SplitCamelCase([c] + rest) == [c] + SplitCamelCase(rest)
  {
    assert ([c] + rest)[1..] == rest;
  }

  lemma SplitCamelCaseBoundary(a: char, b: char, rest: string)
    requires IsLower(a) && IsUpper(b)
    ensures SplitCamelCase([a, b] + rest) == [a, ' ', Lower(b)] + SplitCamelCase(rest)
  {
    assert ([a, b] + rest)[2..] == rest;
  }

  /** A prefix without camel-case boundaries, also none at the seam, comes
      through the scan unchanged. */
  lemma {:induction false} SplitCamelCaseOfPlainPrefix(p: string, q: string)
    requires !HasCamelBoundary(p)
    requires p != [] && q != [] ==> !(IsLower(p[|p| - 1]) && IsUpper(q[0]))
    ensures SplitCamelCase(p + q) == p + SplitCamelCase(q)
    decreases |p|
  {
    if p == [] {
      assert p + q == q;
    } else {
      var tail := p[1..];
      var rest := tail + q;
      assert p + q == [p[0]] + rest;
      if |p| >= 2 {
        assert rest[0] == p[1];
        assert !(IsLower(p[0]) && IsUpper(p[1]));
      } else if q != [] {
        assert rest[0] == q[0];
      }
      SplitCamelCaseCons(p[0], rest);
      NoCamelBoundaryInTail(p);
      if tail != [] && q != [] {
        assert tail[|tail| - 1] == p[|p| - 1];
      }
      SplitCamelCaseOfPlainPrefix(tail, q);
      AppendAssoc([p[0]], tail, SplitCamelCase(q));
      assert p == [p[0]] + tail;
    }
  }

  lemma NoCamelBoundaryInTail(p: string)
    requires p != [] && !HasCamelBoundary(p)
    ensures !HasCamelBoundary(p[1..])
  {
    forall i | 0 <= i < |p[1..]| - 1
      ensures !(IsLower(p[1..][i]) && IsUpper(p[1..][i + 1]))
    {
      assert p[1..][i] == p[i + 1] && p[1..][i + 1] == p[i + 2];
      assert !(IsLower(p[i + 1]) && IsUpper(p[i + 2]));
    }
  }

  lemma SplitCamelCaseUserName()
    ensures SplitCamelCase("userName") == "user name"
  {
    UsePlain();
    UserNameParts();
    SplitCamelCaseOfPlainPrefix("use", "rName");
    SplitCamelCaseBoundary('r', 'N', "ame");
    SplitCamelCaseIdentityAme();
  }

  lemma UsePlain()
    ensures !HasCamelBoundary("use")
  {
    var p := "use";
    forall i | 0 <= i < |p| - 1 ensures !(IsLower(p[i]) && IsUpper(p[i + 1])) {
      assert !IsUpper(p[i + 1]);
    }
  }

  lemma UserNameParts()
    ensures "userName" == "use" + "rName"
    ensures "rName" == ['r', 'N'] + "ame"
    ensures "user name" == "use" + (['r', ' ', Lower('N')] + "ame")
  {
    assert Lower('N') == 'n';
  }

  lemma SplitCamelCaseIdentityAme()
    ensures SplitCamelCase("ame") == "ame"
  {
    var s := "ame";
    forall i | 0 <= i < |s| - 1 ensures !(IsLower(s[i]) && IsUpper(s[i + 1])) {
      assert !IsUpper(s[i + 1]);
    }
    SplitCamelCaseIdentity(s);
  }

  lemma FirstUpperUserName()
    ensures FirstUpper("user name") == Ok("User name")
  {
    assert Upper('u') == 'U';
    FirstUpperOfCons('u', "ser name");
    assert "user name" == ['u'] + "ser name";
    assert "User name" == ['U'] + "ser name";
  }

  lemma UnderscoresToSpacesUserName()
    ensures UnderscoresToSpaces("user_name") == "user name"
  {
  }

  lemma HumanizeUnderscored()
    ensures Humanize("user_name") == Ok("User name")
  {
    DeleteIdMarkersUserName();
    UnderscoresToSpacesUserName();
    SplitCamelCaseUserSpaceName();
    FirstUpperUserName();
  }

  lemma HumanizeCamelCase()
    ensures Humanize("userName") == Ok("User name")
  {
    DeleteIdMarkersKeepsNoUnderscore("userName");
    UnderscoresToSpacesKeepsNoUnderscore("userName");
    SplitCamelCaseUserName();
    FirstUpperUserName();
  }

  lemma HumanizeOfCamelRun()
    ensures Humanize("aBC") == Ok("A bC")
  {
    DeleteIdMarkersKeepsNoUnderscore("aBC");
    UnderscoresToSpacesKeepsNoUnderscore("aBC");
    SplitCamelCaseBoundary('a', 'B', "C");
    assert "aBC" == ['a', 'B'] + "C";
    assert SplitCamelCase("aBC") == "a bC";
    FirstUpperOfCons('a', " bC");
    assert "a bC" == ['a'] + " bC";
    assert "A bC" == ['A'] + " bC";
  }

  lemma HumanizeOfSplitRun()
    ensures Humanize("A bC") == Ok("A b c")
  {
    DeleteIdMarkersKeepsNoUnderscore("A bC");
    UnderscoresToSpacesKeepsNoUnderscore("A bC");
    SplitCamelCaseBoundary('b', 'C', "");
    assert "bC" == ['b', 'C'] + "";
    SplitCamelCaseCons(' ', "bC");
    SplitCamelCaseCons('A', " bC");
    assert "A bC" == ['A'] + (" " + "bC");
    assert SplitCamelCase("A bC") == "A b c";
    FirstUpperOfCons('A', " b c");
    assert "A b c" == ['A'] + " b c";
  }

  /** `humanize` is not idempotent: a second pass splits the camel-case
      boundary the first pass's scan stepped over. */
  lemma HumanizeNotIdempotent()
    ensures Humanize("aBC") == Ok("A bC")
    ensures Humanize(Humanize("aBC").value) == Ok("A b c")
    ensures Humanize(Humanize("aBC").value) != Humanize("aBC")
  {
    HumanizeOfCamelRun();
    HumanizeOfSplitRun();
  }

  lemma HumanizeUser()
    ensures Humanize("User") == Ok("User")
  {
    DeleteIdMarkersKeepsNoUnderscore("User");
    UnderscoresToSpacesKeepsNoUnderscore("User");
    assert SplitCamelCase("er") == "er";
    assert SplitCamelCase("ser") == "ser";
    assert SplitCamelCase("User") == "User";
    assert Upper('U') == 'U';
    FirstUpperOfCons('U', "ser");
    assert "User" == ['U'] + "ser";
  }

  lemma HumanizeClassNameExample()
    ensures HumanizeClassName("Bancha.model.User") == Ok("User")
  {
    assert "Bancha.model.User" == "Bancha.model" + "." + "User";
    HumanizeClassNameTakesLastSegment("Bancha.model", "User");
    HumanizeUser();
  }

  /** `humanize` stage by stage: the deletions, the spaces, the camel-case
      split, then the first letter. */
  lemma HumanizeVia(s: string, noIds: string, spaced: string, first: char, rest: string)
    requires DeleteIdMarkers(s) == noIds && UnderscoresToSpaces(noIds) == spaced
    requires SplitCamelCase(spaced) == [first] + rest
    ensures Humanize(s) == Ok([Upper(first)] + rest)
  {
    assert ([first] + rest)[1..] == rest;
  }

  /** `humanize('user')`: only the first letter changes. */
  lemma HumanizeLowerUser()
    ensures Humanize("user") == Ok("User")
  {
    DeleteIdMarkersKeepsNoUnderscore("user");
    UnderscoresToSpacesKeepsNoUnderscore("user");
    PlainWord("user");
    SplitCamelCaseIdentity("user");
    assert "user" == ['u'] + "ser";
    HumanizeVia("user", "user", "user", 'u', "ser");
    assert Upper('u') == 'U';
    assert "User" == ['U'] + "ser";
  }

  /** A word with no upper-case letter after its first has no camel-case boundary. */
  lemma PlainWord(w: string)
    requires forall i :: 1 <= i < |w| ==> !IsUpper(w[i])
    ensures !HasCamelBoundary(w)
  {
    forall i | 0 <= i < |w| - 1 ensures !(IsLower(w[i]) && IsUpper(w[i + 1])) {
      assert !IsUpper(w[i + 1]);
    }
  }

  /** One camel-case boundary after a plain prefix: the prefix comes through,
      the boundary gets its space and its lower-cased letter. */
  lemma SplitCamelCaseAfterWord(p: string, a: char, b: char, rest: string)
    requires forall i :: 1 <= i < |p| ==> !IsUpper(p[i])
    requires IsLower(a) && IsUpper(b)
    ensures SplitCamelCase(p + [a, b] + rest) == p + [a, ' ', Lower(b)] + SplitCamelCase(rest)
  {
    PlainWord(p);
    assert p + [a, b] + rest == p + ([a, b] + rest);
    SplitCamelCaseOfPlainPrefix(p, [a, b] + rest);
    SplitCamelCaseBoundary(a, b, rest);
  }

  lemma DeleteIdMarkersManyUnderscores()
    ensures DeleteIdMarkers("name_with_many_spaces") == "name_with_many_spaces"
  {
    var s := "name_with_many_spaces";
    forall i | 0 <= i < |s| - 1 ensures !(s[i] == '_' && s[i + 1] == 'i') {
      if s[i] == '_' { assert i == 4 || i == 9 || i == 14; }
    }
    DeleteIdMarkersWithoutMarkers(s);
  }

  /** `UnderscoresToSpaces` is fixed by what it does to each character. */
  lemma UnderscoresToSpacesPointwise(s: string, t: string)
    requires |t| == |s|
    requires forall i :: 0 <= i < |s| ==> t[i] == if s[i] == '_' then ' ' else s[i]
    ensures UnderscoresToSpaces(s) == t
  {
  }

  lemma UnderscoresToSpacesManyUnderscores()
    ensures UnderscoresToSpaces("name_with_many_spaces") == "name with many spaces"
  {
    UnderscoresToSpacesPointwise("name_with_many_spaces", "name with many spaces");
  }

  lemma SplitCamelCaseManySpaces()
    ensures SplitCamelCase("name with many spaces") == "name with many spaces"
  {
    PlainWord("name with many spaces");
    SplitCamelCaseIdentity("name with many spaces");
  }

  lemma HumanizeManyUnderscoresStages()
    ensures Humanize("name_with_many_spaces") == Ok([Upper('n')] + "ame with many spaces")
  {
    DeleteIdMarkersManyUnderscores();
    UnderscoresToSpacesManyUnderscores();
    SplitCamelCaseManySpaces();
    assert "name with many spaces" == ['n'] + "ame with many spaces";
    HumanizeVia("name_with_many_spaces", "name_with_many_spaces", "name with many spaces", 'n', "ame with many spaces");
  }

  /** `humanize('name_with_many_spaces')`: each underscore becomes a space. */
  lemma HumanizeManyUnderscores()
    ensures Humanize("name_with_many_spaces") == Ok("Name with many spaces")
  {
    HumanizeManyUnderscoresStages();
    NameWithManySpaces();
  }

  lemma NameWithManySpaces()
    ensures [Upper('n')] + "ame with many spaces" == "Name with many spaces"
  {
    assert Upper('n') == 'N';
  }

  lemma SplitCamelCaseSpaces()
    ensures SplitCamelCase("anySpaces") == "any spaces"
  {
    ManyCamelWordsPieces();
    PlainWord("paces");
    SplitCamelCaseIdentity("paces");
    SplitCamelCaseAfterWord("an", 'y', 'S', "paces");
  }

  lemma SplitCamelCaseManySpacesTail()
    ensures SplitCamelCase("ithManySpaces") == "ith many spaces"
  {
    ManyCamelWordsPieces();
    SplitCamelCaseSpaces();
    SplitCamelCaseAfterWord("it", 'h', 'M', "anySpaces");
  }

  lemma SplitCamelCaseManyCamelWords()
    ensures SplitCamelCase("nameWithManySpaces") == "name with many spaces"
  {
    ManyCamelWordsPieces();
    SplitCamelCaseManySpacesTail();
    SplitCamelCaseAfterWord("nam", 'e', 'W', "ithManySpaces");
  }

  lemma ManyCamelWordsPieces()
    ensures "nameWithManySpaces" == "nam" + ['e', 'W'] + "ithManySpaces"
    ensures "name with many spaces" == "nam" + ['e', ' ', Lower('W')] + "ith many spaces"
    ensures "name with many spaces" == ['n'] + "ame with many spaces"
    ensures "ithManySpaces" == "it" + ['h', 'M'] + "anySpaces"
    ensures "ith many spaces" == "it" + ['h', ' ', Lower('M')] + "any spaces"
    ensures "anySpaces" == "an" + ['y', 'S'] + "paces"
    ensures "any spaces" == "an" + ['y', ' ', Lower('S')] + "paces"
  {
  }

  lemma HumanizeManyCamelWordsStages()
    ensures Humanize("nameWithManySpaces") == Ok([Upper('n')] + "ame with many spaces")
  {
    DeleteIdMarkersKeepsNoUnderscore("nameWithManySpaces");
    UnderscoresToSpacesKeepsNoUnderscore("nameWithManySpaces");
    ManyCamelWordsPieces();
    SplitCamelCaseManyCamelWords();
    HumanizeVia("nameWithManySpaces", "nameWithManySpaces", "nameWithManySpaces", 'n', "ame with many spaces");
  }

  /** `humanize('nameWithManySpaces')`: each camel-case boundary becomes a
      space and a lower-case letter. */
  lemma HumanizeManyCamelWords()
    ensures Humanize("nameWithManySpaces") == Ok("Name with many spaces")
  {
    HumanizeManyCamelWordsStages();
    NameWithManySpaces();
  }

  lemma SplitCamelCaseAwesomeClass()
    ensures SplitCamelCase("AwesomeClass") == "Awesome class"
  {
    AwesomeClassPieces();
    PlainWord("lass");
    SplitCamelCaseIdentity("lass");
    SplitCamelCaseAfterWord("Awesom", 'e', 'C', "lass");
  }

  lemma HumanizeAwesomeClass()
    ensures Humanize("AwesomeClass") == Ok("Awesome class")
  {
    AwesomeClassPieces();
    DeleteIdMarkersKeepsNoUnderscore("AwesomeClass");
    UnderscoresToSpacesKeepsNoUnderscore("AwesomeClass");
    SplitCamelCaseAwesomeClass();
    HumanizeVia("AwesomeClass", "AwesomeClass", "AwesomeClass", 'A', "wesome class");
  }

  lemma AwesomeClassPieces()
    ensures "Awesome class" == ['A'] + "wesome class"
    ensures [Upper('A')] + "wesome class" == "Awesome class"
    ensures "AwesomeClass" == "Awesom" + ['e', 'C'] + "lass"
    ensures "Awesome class" == "Awesom" + ['e', ' ', Lower('C')] + "lass"
  {
    assert Upper('A') == 'A';
  }

  /** `humanizeClassName('Bancha.model.AwesomeClass')`: the namespace goes and
      the camel-case class name is split into words. */
  lemma HumanizeClassNameAwesomeClass()
    ensures HumanizeClassName("Bancha.model.AwesomeClass") == Ok("Awesome class")
  {
    assert "Bancha.model.AwesomeClass" == "Bancha.model" + "." + "AwesomeClass";
    HumanizeClassNameTakesLastSegment("Bancha.model", "AwesomeClass");
    HumanizeAwesomeClass();
  }
}
