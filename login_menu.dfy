/**
 * The initials badge of the account menu (hackuta-frontend/src/components/LoginMenu.tsx): the
 * source string picked from the user's name and e-mail, split on spaces, the first UTF-16 code
 * unit of each part upper-cased, joined and cut to two code units. `toUpperCase` is a
 * parameter, since its case tables are not modelled.
 */
module LoginMenu {
  import opened Wrappers
  import opened Text

  /** The fields of the signed-in user that the menu reads. */
  datatype User = User(name: Option<string>, email: Option<string>)

  /** JavaScript truthiness of an optional string: present and non-empty. */
  predicate Truthy(s: Option<string>) {
    s.Some? && s.value != ""
  }

  /** `[user.name, user.email].filter(Boolean)`. */
  function Candidates(u: User): (r: seq<string>)
    ensures |r| <= 2
    ensures forall i :: 0 <= i < |r| ==> r[i] != ""
  {
    (if Truthy(u.name) then [u.name.value] else []) + (if Truthy(u.email) then [u.email.value] else [])
  }

  /** `candidates.find(Boolean) ?? ""`. */
  function Source(u: User): string {
    var c := Candidates(u);
    if c == [] then "" else c[0]
  }

  /** The source is the name when it is non-empty, else the e-mail when non-empty, else `""`. */
  lemma SourceChoice(u: User)
    ensures Truthy(u.name) ==> Source(u) == u.name.value
    ensures !Truthy(u.name) && Truthy(u.email) ==> Source(u) == u.email.value
    ensures !Truthy(u.name) && !Truthy(u.email) ==> Source(u) == ""
  {
  }

  /** `part.charAt(0)`: the first code unit, or nothing for an empty part. */
  function CharAt0(part: string): (r: seq<CodeUnit>)
    ensures |r| <= 1 && (r == [] <==> part == [])
  {
    if part == [] then [] else Utf16(part)[..1]
  }

  /** `parts.map(part => part.charAt(0).toUpperCase()).join("")`. */
  function Firsts(parts: seq<string>, upper: seq<CodeUnit> -> seq<CodeUnit>): seq<CodeUnit>
    decreases |parts|
  {
    if parts == [] then [] else upper(CharAt0(parts[0])) + Firsts(parts[1..], upper)
  }

  /** `s.slice(0, 2)`. */
  function FirstTwo(units: seq<CodeUnit>): (r: seq<CodeUnit>)
    ensures |r| <= 2 && |r| <= |units| && r == units[..|r|]
    ensures |units| >= 2 ==> |r| == 2
  {
    if |units| <= 2 then units else units[..2]
  }

  /** `initials`: empty without a user. */
  function Initials(user: Option<User>, upper: seq<CodeUnit> -> seq<CodeUnit>): (r: seq<CodeUnit>)
    ensures |r| <= 2
    ensures user.None? ==> r == []
  {
    match user
    case None => []
    case Some(u) => FirstTwo(Firsts(Split(Source(u), " "), upper))
  }

  /** The parts that are not empty. */
  function NonEmptyParts(parts: seq<string>): (r: seq<string>)
    ensures |r| <= |parts|
    ensures forall i :: 0 <= i < |r| ==> r[i] != []
    decreases |parts|
  {
    if parts == [] then []
    else (if parts[0] == [] then [] else [parts[0]]) + NonEmptyParts(parts[1..])
  }

  /**
   * Empty parts, from leading, trailing or repeated spaces, contribute nothing: the initials
   * are those of the non-empty parts alone.
   */
  lemma {:induction false} EmptyPartsContributeNothing(parts: seq<string>, upper: seq<CodeUnit> -> seq<CodeUnit>)
    requires upper([]) == []
    ensures Firsts(parts, upper) == Firsts(NonEmptyParts(parts), upper)
    decreases |parts|
  {
    if parts != [] {
      EmptyPartsContributeNothing(parts[1..], upper);
      var rest := NonEmptyParts(parts[1..]);
      if parts[0] == [] {
        assert NonEmptyParts(parts) == [] + rest;
        assert CharAt0(parts[0]) == [];
        assert Firsts(parts, upper) == upper([]) + Firsts(parts[1..], upper);
        assert NonEmptyParts(parts) == rest;
        assert Firsts(parts, upper) == Firsts(parts[1..], upper);
      } else {
        var p := [parts[0]] + rest;
        assert NonEmptyParts(parts) == p;
        assert p[0] == parts[0] && p[1..] == rest;
        assert Firsts(p, upper) == upper(CharAt0(parts[0])) + Firsts(rest, upper);
      }
    }
  }

  /** An upper-casing that maps one code unit to one code unit and nothing to nothing (as for ASCII letters). */
  predicate UnitPreserving(upper: seq<CodeUnit> -> seq<CodeUnit>) {
    upper([]) == [] && forall u: CodeUnit :: |upper([u])| == 1
  }

  lemma {:induction false} FirstsLength(parts: seq<string>, upper: seq<CodeUnit> -> seq<CodeUnit>)
    requires UnitPreserving(upper)
    ensures |Firsts(parts, upper)| == |NonEmptyParts(parts)|
    decreases |parts|
  {
    if parts != [] {
      FirstsLength(parts[1..], upper);
      var c := CharAt0(parts[0]);
      if c != [] {
        assert c == [c[0]];
        assert |upper([c[0]])| == 1;
      }
    }
  }

  /**
   * With an upper-casing that keeps single code units single, a user's initials hold one code
   * unit per non-empty space-separated part of the source, at most two.
   */
  lemma InitialsCount(u: User, upper: seq<CodeUnit> -> seq<CodeUnit>)
    requires UnitPreserving(upper)
    ensures var n := |NonEmptyParts(Split(Source(u), " "))|;
      |Initials(Some(u), upper)| == (if n < 2 then n else 2)
  {
    FirstsLength(Split(Source(u), " "), upper);
  }

  /** The fallback icon appears for a user without a non-empty name or e-mail. */
  lemma NoSourceNoInitials(u: User, upper: seq<CodeUnit> -> seq<CodeUnit>)
    requires upper([]) == []
    requires !Truthy(u.name) && !Truthy(u.email)
    ensures Initials(Some(u), upper) == []
  {
    assert Source(u) == "";
    assert Find("", " ").None?;
    assert Split("", " ") == [""];
    assert Firsts([""], upper) == upper([]) + Firsts([], upper);
  }

  /** The label next to the badge: `user.name ?? user.email`. */
  function Label(u: User): Option<string> {
    if u.name.Some? then u.name else u.email
  }

  /**
   * The label and the initials can disagree: an empty name is shown as the (empty) label,
   * while the initials skip it and are taken from the e-mail.
   */
  lemma LabelAndInitialsDiverge(email: string)
    requires email != ""
    ensures var u := User(Some(""), Some(email));
      Label(u) == Some("") && Source(u) == email
  {
  }
}
