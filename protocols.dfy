/** `class Starship: FullyNamed` and its computed `fullName` (learn-swift/book/Protocols.swift). */
module Protocols {
  import opened Swift

  /** A starship's stored properties: an optional prefix and a name. */
  datatype Starship = Starship(prefix: Option<string>, name: string)

  /** `init(name:prefix:)`: stores both arguments; `prefix` defaults to `nil`. */
  function NewStarship(name: string, prefix: Option<string> := None): (s: Starship)
    ensures s.name == name && s.prefix == prefix
  {
    Starship(prefix, name)
  }

  /** The `fullName` requirement of `FullyNamed`: the prefix and a space, when there is a prefix, then the name. */
  function FullName(s: Starship): (r: string)
    ensures |s.name| <= |r| && r[|r| - |s.name|..] == s.name
  {
    (if s.prefix.Some? then s.prefix.value + " " else "") + s.name
  }

  /** No space character occurs in `p`. */
  predicate NoSpace(p: string)
  {
    forall i :: 0 <= i < |p| ==> p[i] != ' '
  }

  /** Without a prefix (the default), the full name is the name. */
  lemma FullNameWithoutPrefix(name: string)
    ensures FullName(NewStarship(name)) == name
  {
  }

  /** With prefix `p`, the full name is `p`, a space, then the name. */
  lemma FullNameWithPrefix(name: string, p: string)
    ensures FullName(NewStarship(name, Some(p))) == p + " " + name
  {
  }

  /** A prefixed full name splits back into its prefix, the separating space, and the name. */
  lemma PrefixedFullNameParts(name: string, p: string)
    ensures var r := FullName(NewStarship(name, Some(p)));
      |r| == |p| + 1 + |name| && r[..|p|] == p && r[|p|] == ' ' && r[|p| + 1..] == name
  {
    var r := FullName(NewStarship(name, Some(p)));
    assert r == p + [' '] + name;
  }

  /**
   * Two prefixed starships whose prefixes are single words have the same full name
   * only when they have the same prefix and the same name.
   */
  lemma PrefixedFullNameInjective(s: Starship, t: Starship)
    requires s.prefix.Some? && t.prefix.Some?
    requires NoSpace(s.prefix.value) && NoSpace(t.prefix.value)
    requires FullName(s) == FullName(t)
    ensures s == t
  {
    var p, q := s.prefix.value, t.prefix.value;
    PrefixedFullNameParts(s.name, p);
    PrefixedFullNameParts(t.name, q);
  }

  /** `Starship(name: "Enterprise", prefix: "USS").fullName` is "USS Enterprise". */
  lemma Enterprise()
    ensures FullName(NewStarship("Enterprise", Some("USS"))) == "USS Enterprise"
  {
  }
}
