/** POSIX pure paths, and the two independent validators of relative paths: one in the
    policy, one beside the file descriptors. */
module Paths {
  import opened Domain

  // ---------- pure paths ----------

  // A parsed path: root is "", "/" or "//", and no part is empty or a dot.
  datatype PurePath = PurePath(root: string, parts: seq<string>)

  function Split(s: string): (r: seq<string>)
    ensures |r| >= 1
  {
    if s == [] then [[]] else
    var r := Split(s[1..]);
    if s[0] == '/' then [[]] + r else [[s[0]] + r[0]] + r[1..]
  }

  function Join(parts: seq<string>): string {
    if parts == [] then [] else if |parts| == 1 then parts[0] else parts[0] + ['/'] + Join(parts[1..])
  }

  predicate Kept(part: string) { part != [] && part != ['.'] }

  function Filter(parts: seq<string>): (r: seq<string>)
    ensures forall i :: 0 <= i < |r| ==> Kept(r[i]) && r[i] in parts
    ensures |r| <= |parts|
    ensures |r| == |parts| <==> r == parts
  {
    if parts == [] then []
    else if Kept(parts[0]) then [parts[0]] + Filter(parts[1..])
    else Filter(parts[1..])
  }

  // Two leading slashes, but not three, are a root of their own.
  function RootOf(s: string): string {
    if s == [] || s[0] != '/' then []
    else if |s| >= 2 && s[1] == '/' && (|s| == 2 || s[2] != '/') then ['/', '/']
    else ['/']
  }

  // PurePath(s)
  function Parse(s: string): PurePath { PurePath(RootOf(s), Filter(Split(s))) }

  // str(path)
  function Text(p: PurePath): string {
    if p.root == [] && p.parts == [] then ['.'] else p.root + Join(p.parts)
  }

  // p / q
  function Slash(p: PurePath, q: PurePath): PurePath {
    if q.root != [] then q else PurePath(p.root, p.parts + q.parts)
  }

  // p.is_relative_to(q)
  predicate RelativeTo(p: PurePath, q: PurePath) { p.root == q.root && q.parts <= p.parts }

  predicate NoSlash(part: string) { '/' !in part }

  predicate Proper(parts: seq<string>) {
    forall i :: 0 <= i < |parts| ==> Kept(parts[i]) && NoSlash(parts[i])
  }

  predicate WellFormed(p: PurePath) {
    (p.root == [] || p.root == ['/'] || p.root == ['/', '/']) && Proper(p.parts)
  }

  // ---------- splitting and joining ----------

  lemma {:induction false} SplitHasNoSlash(s: string)
    ensures forall i :: 0 <= i < |Split(s)| ==> NoSlash(Split(s)[i])
  {
    if s != [] { SplitHasNoSlash(s[1..]); }
  }

  lemma {:induction false} JoinSplit(s: string)
    ensures Join(Split(s)) == s
  {
    if s != [] {
      JoinSplit(s[1..]);
      var r := Split(s[1..]);
      if s[0] == '/' {
        assert Join([[]] + r) == [] + ['/'] + Join(([[]] + r)[1..]);
        assert ([[]] + r)[1..] == r;
      } else {
        assert ([[s[0]] + r[0]] + r[1..])[1..] == r[1..];
        assert Join(Split(s)) == [s[0]] + Join(r);
      }
      assert s == [s[0]] + s[1..];
    }
  }

  lemma {:induction false} SplitPart(part: string, rest: string)
    requires NoSlash(part)
    ensures Split(part + ['/'] + rest) == [part] + Split(rest)
  {
    var s := part + ['/'] + rest;
    if part == [] {
      assert s[1..] == rest;
    } else {
      assert s[1..] == part[1..] + ['/'] + rest;
      SplitPart(part[1..], rest);
      assert part == [part[0]] + part[1..];
    }
  }

  lemma {:induction false} SplitOne(part: string)
    requires NoSlash(part)
    ensures Split(part) == [part]
  {
    if part != [] {
      SplitOne(part[1..]);
      assert part == [part[0]] + part[1..];
    }
  }

  lemma {:induction false} SplitJoin(parts: seq<string>)
    requires parts != [] && forall i :: 0 <= i < |parts| ==> NoSlash(parts[i])
    ensures Split(Join(parts)) == parts
  {
    if |parts| == 1 {
      SplitOne(parts[0]);
    } else {
      SplitJoin(parts[1..]);
      SplitPart(parts[0], Join(parts[1..]));
    }
  }

  lemma {:induction false} FilterProper(parts: seq<string>)
    ensures Filter(parts) == parts <==> forall i :: 0 <= i < |parts| ==> Kept(parts[i])
  {
    if parts != [] {
      FilterProper(parts[1..]);
      if Kept(parts[0]) {
        assert parts == [parts[0]] + parts[1..];
        if Filter(parts) == parts {
          assert Filter(parts)[1..] == Filter(parts[1..]);
          assert forall i :: 0 <= i < |parts| ==> i == 0 || parts[i] == parts[1..][i - 1];
        } else {
          assert Filter(parts[1..]) != parts[1..];
          var i :| 0 <= i < |parts[1..]| && !Kept(parts[1..][i]);
          assert parts[i + 1] == parts[1..][i];
        }
      }
    }
  }

  lemma ParseProper(s: string)
    ensures WellFormed(Parse(s))
  {
    SplitHasNoSlash(s);
  }

  lemma FilterEmpty(parts: seq<string>)
    ensures Filter([[]] + parts) == Filter(parts)
  {
    assert ([[]] + parts)[1..] == parts;
  }

  lemma JoinStart(parts: seq<string>)
    requires Proper(parts)
    ensures parts != [] ==> Join(parts) != [] && Join(parts)[0] != '/'
    ensures parts == [] ==> Join(parts) == []
  {
    if parts != [] {
      assert parts[0][0] in parts[0];
    }
  }

  // Parsing the printed form of a path gives the path back.
  lemma ParseText(p: PurePath)
    requires WellFormed(p)
    ensures Parse(Text(p)) == p
  {
    JoinStart(p.parts);
    FilterProper(p.parts);
    if p.parts == [] {
      SplitRootOnly(p);
    } else {
      SplitJoin(p.parts);
      SplitRoot(p.root, Join(p.parts));
      assert RootOf(Text(p)) == p.root;
    }
  }

  lemma SplitRootOnly(p: PurePath)
    requires WellFormed(p) && p.parts == []
    ensures Parse(Text(p)) == p
  {
    assert Split([]) == [[]];
    if p.root == [] {
      SplitOne(['.']);
      assert Filter([['.']]) == Filter([['.']][1..]) == [];
    } else {
      SplitRoot(p.root, []);
      assert Text(p) == p.root + [];
      assert Filter([[]]) == Filter([[]][1..]) == [];
    }
  }

  lemma SplitRoot(root: string, rest: string)
    requires root == [] || root == ['/'] || root == ['/', '/']
    ensures Filter(Split(root + rest)) == Filter(Split(rest))
  {
    if root == [] {
      assert root + rest == rest;
    } else if root == ['/'] {
      assert (root + rest)[1..] == rest;
      FilterEmpty(Split(rest));
    } else {
      assert (root + rest)[1..] == ['/'] + rest;
      assert (['/'] + rest)[1..] == rest;
      FilterEmpty(Split(rest));
      FilterEmpty(Split(['/'] + rest));
    }
  }

  // ---------- sensitive paths ----------

  // str.casefold, which this model takes as a parameter.
  type Fold = string -> string

  predicate HasSuffix(s: string, t: string) { |s| >= |t| && s[|s| - |t|..] == t }

  predicate HasPrefix(s: string, t: string) { |s| >= |t| && s[..|t|] == t }

  predicate Contains(s: string, t: string) { HasPrefix(s, t) || (s != [] && Contains(s[1..], t)) }

  function FoldAll(fold: Fold, parts: seq<string>): (r: seq<string>)
    ensures |r| == |parts|
  {
    seq(|parts|, i requires 0 <= i < |parts| => fold(parts[i]))
  }

  function Slashed(s: string): string {
    if s == [] then [] else [if s[0] == '\\' then '/' else s[0]] + Slashed(s[1..])
  }

  const SENSITIVE_NAMES := {
    ".env", ".git-credentials", ".netrc", ".npmrc", ".pypirc", "credentials", "credentials.json", "id_dsa",
    "id_ecdsa", "id_ed25519", "id_rsa", "known_hosts", "secrets.json"}

  const SENSITIVE_DIRECTORIES := {".aws", ".gnupg", ".ssh"}

  // is_sensitive_path
  predicate IsSensitive(fold: Fold, path: string) {
    var parts := FoldAll(fold, Filter(Split(Slashed(path))));
    parts != [] &&
    var name := parts[|parts| - 1];
    || name in SENSITIVE_NAMES || HasPrefix(name, ".env.")
    || (exists i :: 0 <= i < |parts| && parts[i] in SENSITIVE_DIRECTORIES)
    || (|parts| >= 2 && parts[|parts| - 2] == ".git" && name == "config")
    || HasSuffix(name, ".key") || HasSuffix(name, ".pem") || HasSuffix(name, ".p12")
    || HasSuffix(name, ".pfx") || HasSuffix(name, ".jks")
    || Contains(name, "credential") || HasPrefix(name, "secret-")
  }

  lemma RootIsNotSensitive(fold: Fold)
    ensures !IsSensitive(fold, ['.'])
  {
    assert Slashed(['.']) == ['.'] + Slashed([]);
    SplitOne(['.']);
    assert Filter([['.']]) == Filter([['.']][1..]) == [];
  }

  // ---------- the two validators ----------

  const NUL: char := 0 as char

  // _relative_path of the policy
  function PolicyRelative(value: string): Option<string> {
    if value == [] || NUL in value || '\\' in value then None else
    var p := Parse(value);
    if p.root != [] || ['.', '.'] in p.parts || Text(p) != value then None else Some(value)
  }

  lemma {:induction false} SlashedStays(s: string)
    requires '\\' !in s
    ensures Slashed(s) == s
  {
    if s != [] {
      SlashedStays(s[1..]);
      assert s == [s[0]] + s[1..];
    }
  }

  // A folded name that may hold a secret.
  predicate SecretName(name: string) {
    || name in {".env", ".git-credentials", ".netrc", ".npmrc", ".pypirc", "credentials", "credentials.json", "id_dsa",
                "id_ecdsa", "id_ed25519", "id_rsa", "known_hosts", "secrets.json"}
    || (|name| >= 5 && name[..5] == ".env.") || (|name| >= 7 && name[..7] == "secret-")
    || (|name| >= 4 && name[|name| - 4..] in {".key", ".pem", ".p12", ".pfx", ".jks"})
    || exists i :: 0 <= i <= |name| - 10 && name[i..][..10] == "credential"
  }

  lemma {:induction false} ContainsAt(s: string, t: string)
    ensures Contains(s, t) <==> exists i :: 0 <= i <= |s| - |t| && s[i..][..|t|] == t
  {
    if s != [] {
      ContainsAt(s[1..], t);
      if Contains(s, t) {
        if HasPrefix(s, t) {
          assert s[0..] == s;
        } else {
          var i :| 0 <= i <= |s[1..]| - |t| && s[1..][i..][..|t|] == t;
          assert s[1..][i..] == s[i + 1..];
        }
      }
      if i :| 0 <= i <= |s| - |t| && s[i..][..|t|] == t {
        if i == 0 { assert s[0..] == s; } else { assert s[1..][i - 1..] == s[i..]; }
      }
    } else if t == [] {
      assert s[0..][..0] == t;
    }
  }

  /** What counts as sensitive among the paths the policy accepts: the folded last component
      is a secret's name, a folded component is one of three directories, or the path ends
      in .git/config. */
  lemma SensitiveMeans(fold: Fold, value: string)
    requires PolicyRelative(value).Some?
    ensures var parts := FoldAll(fold, Parse(value).parts);
            var n := |parts|;
            IsSensitive(fold, value) <==>
            n > 0 && (SecretName(parts[n - 1]) || ".aws" in parts || ".gnupg" in parts || ".ssh" in parts ||
                      (n > 1 && parts[n - 2] == ".git" && parts[n - 1] == "config"))
  {
    SlashedStays(value);
    var parts := FoldAll(fold, Parse(value).parts);
    if parts != [] {
      var name := parts[|parts| - 1];
      ContainsAt(name, "credential");
      SameName(name);
    }
  }

  // The two ways of telling a secret's name agree.
  lemma SameName(name: string)
    requires Contains(name, "credential") <==> exists i :: 0 <= i <= |name| - 10 && name[i..][..10] == "credential"
    ensures SecretName(name) <==>
            name in SENSITIVE_NAMES || HasPrefix(name, ".env.") || HasSuffix(name, ".key") || HasSuffix(name, ".pem") ||
            HasSuffix(name, ".p12") || HasSuffix(name, ".pfx") || HasSuffix(name, ".jks") ||
            Contains(name, "credential") || HasPrefix(name, "secret-")
  {
    hide Contains, HasSuffix, HasPrefix;
    Starts(name, ".env.");
    Starts(name, "secret-");
    Ends(name, ".key");
    Ends(name, ".pem");
    Ends(name, ".p12");
    Ends(name, ".pfx");
    Ends(name, ".jks");
    LiteralLengths();
  }

  lemma LiteralLengths()
    ensures |".env."| == 5 && |"secret-"| == 7 && |".key"| == |".pem"| == |".p12"| == |".pfx"| == |".jks"| == 4
  {
  }

  lemma Starts(s: string, t: string)
    ensures HasPrefix(s, t) <==> |s| >= |t| && s[..|t|] == t
  {
  }

  lemma Ends(s: string, t: string)
    ensures HasSuffix(s, t) <==> |s| >= |t| && s[|s| - |t|..] == t
  {
  }

  // validate_relative_path of the filesystem layer: the normalized text and its parts
  function ValidateRelative(fold: Fold, value: string, allowRoot: bool): Option<(string, seq<string>)> {
    if value == [] || NUL in value || '\\' in value || value[0] == '/' then None
    else if value == ['.'] then (if allowRoot then Some((['.'], [])) else None)
    else
      var parts := Split(value);
      if exists i :: 0 <= i < |parts| && (parts[i] == [] || parts[i] == ['.'] || parts[i] == ['.', '.']) then None
      else if Join(parts) != value then None
      else if IsSensitive(fold, Join(parts)) then None
      else Some((Join(parts), parts))
  }

  // A relative text is its own normal form exactly when it is the bare dot or has no
  // empty and no dot component.
  lemma NormalForm(value: string)
    requires value != [] && value[0] != '/'
    ensures Text(Parse(value)) == value <==>
            value == ['.'] || forall i :: 0 <= i < |Split(value)| ==> Kept(Split(value)[i])
    ensures Text(Parse(value)) == value && value != ['.'] ==> Parse(value).parts == Split(value)
  {
    var parts, kept := Split(value), Filter(Split(value));
    assert Parse(value) == PurePath([], kept);
    JoinSplit(value);
    FilterProper(parts);
    if value == ['.'] {
      SplitOne(['.']);
      assert Filter([['.']]) == Filter([['.']][1..]) == [];
    } else if kept == parts {
      assert Text(Parse(value)) == [] + Join(parts);
    } else if Text(Parse(value)) == value {
      assert kept != [];
      assert Join(kept) == value by { assert [] + Join(kept) == Join(kept); }
      SplitHasNoSlash(value);
      SplitJoin(kept);
    }
  }

  /** The two validators agree on every string: what the policy lets through as a
      relative, non-sensitive path is exactly what the file layer opens, component for
      component; without allow_root the bare dot is the only difference. */
  lemma ValidatorsAgree(fold: Fold, value: string)
    ensures PolicyRelative(value).Some? && !IsSensitive(fold, value) <==>
            ValidateRelative(fold, value, true).Some?
    ensures ValidateRelative(fold, value, true).Some? ==>
              ValidateRelative(fold, value, true).value == (value, Parse(value).parts)
    ensures ValidateRelative(fold, value, false) ==
            if value == ['.'] then None else ValidateRelative(fold, value, true)
  {
    if value != [] && value[0] != '/' {
      NormalForm(value);
      JoinSplit(value);
      RootIsNotSensitive(fold);
      if value == ['.'] {
        SplitOne(['.']);
        assert Filter([['.']]) == Filter([['.']][1..]) == [];
      }
    }
  }

  // A piece of a path that names an entry, or an ancestor's.
  predicate Named(piece: string) { piece != "" && piece != "." && piece != ".." && NoSlash(piece) }

  /** The policy accepts exactly the bare dot and the texts whose pieces between slashes all
      name something, without a NUL and without a backslash. */
  lemma RelativeExactly(value: string)
    ensures PolicyRelative(value).Some? <==>
            NUL !in value && '\\' !in value &&
            (value == ['.'] || forall i :: 0 <= i < |Split(value)| ==> Named(Split(value)[i]))
  {
    if value == ['.'] {
      SplitOne(['.']);
      assert Filter([['.']]) == Filter([['.']][1..]) == [];
    } else if value == [] || value[0] == '/' {
      assert Split(value)[0] == [];
    } else {
      OrdinaryExactly(value);
    }
  }

  lemma OrdinaryExactly(value: string)
    requires value != [] && value[0] != '/' && value != ['.']
    ensures PolicyRelative(value).Some? <==>
            NUL !in value && '\\' !in value && forall i :: 0 <= i < |Split(value)| ==> Named(Split(value)[i])
  {
    SplitHasNoSlash(value);
    NamedPieces(Split(value));
    NormalForm(value);
    assert Parse(value).root == [];
    hide Split, Filter, Named, Kept, NoSlash, RootOf, Text;
    var named := forall i :: 0 <= i < |Split(value)| ==> Named(Split(value)[i]);
    assert Text(Parse(value)) == value ==> Parse(value).parts == Split(value);
    assert named <==> Text(Parse(value)) == value && ['.', '.'] !in Split(value);
  }

  lemma NamedPieces(pieces: seq<string>)
    requires forall i :: 0 <= i < |pieces| ==> NoSlash(pieces[i])
    ensures (forall i :: 0 <= i < |pieces| ==> Named(pieces[i])) <==>
            ['.', '.'] !in pieces && forall i :: 0 <= i < |pieces| ==> Kept(pieces[i])
  {
  }

  // ---------- containment ----------

  // An absolute path in its canonical spelling, without parent steps.
  predicate CanonicalAbsolute(value: string) {
    NUL !in value && Parse(value).root != [] && ['.', '.'] !in Parse(value).parts && Text(Parse(value)) == value
  }

  /** A text is a canonical absolute path exactly when it is one or two slashes followed by
      named pieces with one slash between them, without a NUL. */
  lemma AbsoluteExactly(value: string)
    ensures CanonicalAbsolute(value) <==>
            '\0' !in value &&
            exists root, pieces :: root in {"/", "//"} && AllNamed(pieces) && value == root + Join(pieces)
  {
    var p := Parse(value);
    ParseProper(value);
    if CanonicalAbsolute(value) {
      assert p.root in {"/", "//"} && AllNamed(p.parts) && value == p.root + Join(p.parts);
    }
    if root, pieces :| root in {"/", "//"} && AllNamed(pieces) && value == root + Join(pieces) {
      ParseText(PurePath(root, pieces));
    }
  }

  predicate AllNamed(pieces: seq<string>) { forall i :: 0 <= i < |pieces| ==> Named(pieces[i]) }

  // The text of root / relative, as every layer recomputes it.
  function TargetText(root: string, relative: string): string { Text(Slash(Parse(root), Parse(relative))) }

  /** A target that matches an accepted relative path lies below the root: its
      components are the root's followed by the relative ones, with no parent step. */
  lemma TargetContained(root: string, relative: string)
    requires CanonicalAbsolute(root) && PolicyRelative(relative).Some?
    ensures var target := Parse(TargetText(root, relative));
            && target.root == Parse(root).root
            && target.parts == Parse(root).parts + Parse(relative).parts
            && RelativeTo(target, Parse(root)) && ['.', '.'] !in target.parts
    ensures Text(Parse(TargetText(root, relative))) == TargetText(root, relative)
  {
    hide Parse, Text, Kept, NoSlash;
    ParseProper(root);
    ParseProper(relative);
    var p, q := Parse(root), Parse(relative);
    forall i | 0 <= i < |p.parts + q.parts|
      ensures Kept((p.parts + q.parts)[i]) && NoSlash((p.parts + q.parts)[i])
    {
      assert (p.parts + q.parts)[i] == if i < |p.parts| then p.parts[i] else q.parts[i - |p.parts|];
    }
    ParseText(Slash(p, q));
  }
}
