/** Image references: the expression they match, the parser, and the printer. */
module ImageRef {
  import opened Names

  // ---------------------------------------------------------------------------------------
  // imageRegexp

  predicate TagChar(c: char) {
    'a' <= c <= 'z' || 'A' <= c <= 'Z' || '0' <= c <= '9' || c == '-' || c == '_' || c == '.'
  }

  function InTag(): char -> bool { c => TagChar(c) }
  function InNamespace(): char -> bool { c => c != ':' && c != '@' }
  function InRegistry(): char -> bool { c => c != '/' }
  function InDigest(): char -> bool { c => c != '\n' }

  predicate All(s: string, p: char -> bool) {
    forall i | 0 <= i < |s| :: p(s[i])
  }

  /** [^/]+[.:][^/]+ */
  predicate RegistryOk(r: string) {
    All(r, InRegistry()) && exists i :: 1 <= i < |r| - 1 && (r[i] == '.' || r[i] == ':')
  }

  predicate NamespaceOk(n: string) {
    n != "" && All(n, InNamespace())
  }

  predicate TagOk(t: string) {
    1 <= |t| <= 128 && All(t, InTag())
  }

  predicate DigestOk(d: string) {
    d != "" && All(d, InDigest())
  }

  /** The four groups; an optional group that does not take part is empty. */
  datatype Parts = Parts(registry: string, namespace: string, tag: string, digest: string)

  predicate Fits(p: Parts) {
    && (p.registry == "" || RegistryOk(p.registry))
    && NamespaceOk(p.namespace)
    && (p.tag == "" || TagOk(p.tag))
    && (p.digest == "" || DigestOk(p.digest))
  }

  /** What stands for an optional group, with the character that introduces it. */
  function Marked(mark: char, s: string): string {
    if s == "" then "" else [mark] + s
  }

  function Tail(p: Parts): string {
    p.namespace + (Marked(':', p.tag) + Marked('@', p.digest))
  }

  function Text(p: Parts): string {
    if p.registry == "" then Tail(p) else p.registry + ("/" + Tail(p))
  }

  /** The longest prefix whose characters satisfy p. */
  function Run(s: string, p: char -> bool): (n: nat)
    ensures n <= |s|
  {
    if s == "" || !p(s[0]) then 0 else 1 + Run(s[1..], p)
  }

  /** (?:@(?P<digest>.+))?$ */
  function MatchDigest(namespace: string, tag: string, s: string): Option<Parts> {
    if s == "" then Some(Parts("", namespace, tag, ""))
    else if s[0] == '@' && DigestOk(s[1..]) then Some(Parts("", namespace, tag, s[1..]))
    else None
  }

  /** (?::(?P<tag>[a-zA-Z0-9-_.]{1,128}))? and what follows. */
  function MatchTag(namespace: string, s: string): Option<Parts> {
    if s != "" && s[0] == ':' then
      var k := Run(s[1..], InTag());
      if 1 <= k <= 128 then MatchDigest(namespace, s[1..][..k], s[1..][k..]) else None
    else MatchDigest(namespace, "", s)
  }

  /** What follows the registry. */
  function MatchTail(s: string): Option<Parts> {
    var n := Run(s, InNamespace());
    if n == 0 then None else MatchTag(s[..n], s[n..])
  }

  /** The match with a registry, if there is one. */
  function MatchRegistry(s: string): Option<Parts> {
    var n := Run(s, InRegistry());
    if n < |s| && RegistryOk(s[..n]) && MatchTail(s[n + 1..]).Some? then
      Some(MatchTail(s[n + 1..]).value.(registry := s[..n]))
    else None
  }

  /** The match that the expression prefers: with a registry if that is possible at all. */
  function Match(s: string): Option<Parts> {
    if MatchRegistry(s).Some? then MatchRegistry(s) else MatchTail(s)
  }

  lemma {:induction false} RunStops(s: string, p: char -> bool)
    ensures var n := Run(s, p); All(s[..n], p) && (n < |s| ==> !p(s[n]))
  {
    if s != "" && p(s[0]) {
      RunStops(s[1..], p);
      var n := Run(s, p);
      assert forall i | 0 < i < n :: s[..n][i] == s[1..][..n - 1][i - 1];
    }
  }

  lemma {:induction false} RunIs(s: string, p: char -> bool, n: nat)
    requires n <= |s| && All(s[..n], p) && (n < |s| ==> !p(s[n]))
    ensures Run(s, p) == n
  {
    if n > 0 {
      assert s[..n][0] == s[0] && s[1..][..n - 1] == s[..n][1..];
      RunIs(s[1..], p, n - 1);
    }
  }

  lemma RunOver(s: string, rest: string, p: char -> bool)
    requires All(s, p) && (rest == "" || !p(rest[0]))
    ensures Run(s + rest, p) == |s| && (s + rest)[..|s|] == s && (s + rest)[|s|..] == rest
  {
    assert (s + rest)[..|s|] == s;
    RunIs(s + rest, p, |s|);
  }

  /** Facts about concatenation, apart from what the strings mean. */
  lemma Join(a: string, c: char, b: string)
    ensures a + [c] + b == a + ([c] + b)
    ensures (a + ([c] + b))[|a|] == c && (a + ([c] + b))[|a| + 1..] == b
    ensures ([c] + a) + b == [c] + (a + b)
  {}

  lemma Cut(s: string, n: nat)
    requires n <= |s|
    ensures s[..n] + s[n..] == s
    ensures n < |s| ==> s[..n] + ([s[n]] + s[n + 1..]) == s
  {}

  lemma DigestSound(namespace: string, tag: string, s: string)
    requires MatchDigest(namespace, tag, s).Some?
    ensures var p := MatchDigest(namespace, tag, s).value;
      && p == Parts("", namespace, tag, p.digest) && (p.digest == "" || DigestOk(p.digest))
      && Marked('@', p.digest) == s
  {
    if s != "" { Cut(s, 0); }
  }

  lemma TagSound(namespace: string, s: string)
    requires MatchTag(namespace, s).Some?
    ensures var p := MatchTag(namespace, s).value;
      && p.registry == "" && p.namespace == namespace
      && (p.tag == "" || TagOk(p.tag)) && (p.digest == "" || DigestOk(p.digest))
      && Marked(':', p.tag) + Marked('@', p.digest) == s
  {
    if s != "" && s[0] == ':' {
      var k := Run(s[1..], InTag());
      RunStops(s[1..], InTag());
      DigestSound(namespace, s[1..][..k], s[1..][k..]);
      Cut(s, 0);
      Cut(s[1..], k);
      Join(s[1..][..k], ':', s[1..][k..]);
    } else {
      DigestSound(namespace, "", s);
      assert "" + s == s;
    }
  }

  lemma DigestComplete(namespace: string, tag: string, digest: string)
    requires digest == "" || DigestOk(digest)
    ensures MatchDigest(namespace, tag, Marked('@', digest)) == Some(Parts("", namespace, tag, digest))
  {
    assert digest != "" ==> Marked('@', digest)[1..] == digest;
  }

  lemma TagComplete(namespace: string, tag: string, digest: string)
    requires (tag == "" || TagOk(tag)) && (digest == "" || DigestOk(digest))
    ensures MatchTag(namespace, Marked(':', tag) + Marked('@', digest)) == Some(Parts("", namespace, tag, digest))
  {
    var end := Marked('@', digest);
    DigestComplete(namespace, tag, digest);
    if tag == "" {
      assert "" + end == end;
    } else {
      assert ([':'] + tag + end)[1..] == tag + end;
      RunOver(tag, end, InTag());
    }
  }

  lemma TailSound(s: string)
    requires MatchTail(s).Some?
    ensures Fits(MatchTail(s).value) && Tail(MatchTail(s).value) == s && MatchTail(s).value.registry == ""
  {
    var n := Run(s, InNamespace());
    RunStops(s, InNamespace());
    TagSound(s[..n], s[n..]);
    Cut(s, n);
    var p := MatchTag(s[..n], s[n..]).value;
    assert p.namespace == s[..n] && NamespaceOk(s[..n]);
    assert Tail(p) == s[..n] + s[n..];
  }

  lemma TailComplete(p: Parts)
    requires Fits(p)
    ensures MatchTail(Tail(p)) == Some(p.(registry := ""))
  {
    TagComplete(p.namespace, p.tag, p.digest);
    RunOver(p.namespace, Marked(':', p.tag) + Marked('@', p.digest), InNamespace());
  }

  lemma RegistrySound(s: string)
    requires MatchRegistry(s).Some?
    ensures Fits(MatchRegistry(s).value) && Text(MatchRegistry(s).value) == s
  {
    var n := Run(s, InRegistry());
    RunStops(s, InRegistry());
    TailSound(s[n + 1..]);
    Cut(s, n);
  }

  /** A match found is a way of reading the text. */
  lemma MatchSound(s: string)
    requires Match(s).Some?
    ensures Fits(Match(s).value) && Text(Match(s).value) == s
  {
    if MatchRegistry(s).Some? { RegistrySound(s); } else { TailSound(s); }
  }

  lemma RegistryComplete(p: Parts)
    requires Fits(p) && p.registry != ""
    ensures Match(Text(p)) == Some(p)
  {
    var s := Text(p);
    TailComplete(p);
    RunOver(p.registry, "/" + Tail(p), InRegistry());
    Join(p.registry, '/', Tail(p));
  }

  /** Every way of reading the text is found, unless one with a registry is preferred to it. */
  lemma MatchComplete(p: Parts)
    requires Fits(p)
    ensures Match(Text(p)).Some?
    ensures p.registry != "" || Match(Text(p)).value.registry == "" ==> Match(Text(p)) == Some(p)
  {
    if p.registry != "" { RegistryComplete(p); } else { TailComplete(p); }
  }

  /** The expression is unambiguous once it is settled whether there is a registry. */
  lemma Unambiguous(p: Parts, q: Parts)
    requires Fits(p) && Fits(q) && Text(p) == Text(q) && (p.registry == "" <==> q.registry == "")
    ensures p == q
  {
    if p.registry != "" {
      MatchComplete(p);
      MatchComplete(q);
    } else {
      TailComplete(p);
      TailComplete(q);
    }
  }

  // ---------------------------------------------------------------------------------------
  // Parse and String

  datatype Image = Image(registry: string, namespace: string, tag: string, digest: string)

  const DEFAULT_REGISTRY := "docker.io"

  /** None stands for an error; `valid` is the digest library's own check. */
  function Parse(s: string, valid: string -> bool): Option<Image> {
    var matched := Match(s);
    if matched.None? then None
    else
      var p := matched.value;
      var registry := if p.registry == "" then DEFAULT_REGISTRY else p.registry;
      var namespace :=
        if registry == DEFAULT_REGISTRY && '/' !in p.namespace then "library/" + p.namespace else p.namespace;
      var tag := if p.tag == "" && p.digest == "" then "latest" else p.tag;
      if p.digest != "" && !valid(p.digest) then None
      else Some(Image(registry, namespace, tag, p.digest))
  }

  function Print(i: Image): string {
    i.registry + "/" + i.namespace
    + (if i.tag != "" then ":" + i.tag else "")
    + (if i.digest != "" then "@" + i.digest else "")
  }

  /** A fully spelt-out reference: what normalisation leaves alone. */
  predicate Normal(i: Image, valid: string -> bool) {
    && i.registry != "" && Fits(PartsOf(i))
    && (i.registry == DEFAULT_REGISTRY ==> '/' in i.namespace)
    && (i.tag != "" || i.digest != "")
    && (i.digest != "" ==> valid(i.digest))
  }

  function PartsOf(i: Image): Parts {
    Parts(i.registry, i.namespace, i.tag, i.digest)
  }

  lemma DefaultsFit(namespace: string)
    requires NamespaceOk(namespace)
    ensures RegistryOk(DEFAULT_REGISTRY) && TagOk("latest")
    ensures NamespaceOk("library/" + namespace) && '/' in "library/" + namespace
  {
    assert DEFAULT_REGISTRY[6] == '.';
    assert ("library/" + namespace)[7] == '/';
  }

  lemma ParseNormal(s: string, valid: string -> bool)
    requires Parse(s, valid).Some?
    ensures Normal(Parse(s, valid).value, valid)
  {
    MatchSound(s);
    DefaultsFit(Match(s).value.namespace);
  }

  /** The one way in which the expression reads the text: with a registry, unless that is not possible. */
  ghost predicate Reads(p: Parts, s: string) {
    Fits(p) && Text(p) == s && (p.registry != "" || forall q | Fits(q) && Text(q) == s :: q.registry == "")
  }

  lemma ReadsIsMatch(p: Parts, s: string)
    ensures Reads(p, s) <==> Match(s) == Some(p)
  {
    if Reads(p, s) {
      MatchComplete(p);
      MatchSound(s);
    } else if Match(s) == Some(p) {
      MatchSound(s);
      forall q | Fits(q) && Text(q) == s ensures p.registry != "" || q.registry == "" { MatchComplete(q); }
    }
  }

  /** What Parse makes of a reference, part by part; it accepts all but those whose digest is not valid. */
  lemma ParseExactly(p: Parts, s: string, valid: string -> bool)
    requires Reads(p, s)
    ensures Parse(s, valid).Some? <==> p.digest == "" || valid(p.digest)
    ensures Parse(s, valid).Some? ==>
      var i := Parse(s, valid).value;
      && i.registry == (if p.registry == "" then "docker.io" else p.registry)
      && i.namespace == (if i.registry == "docker.io" && '/' !in p.namespace then "library/" + p.namespace
                         else p.namespace)
      && i.tag == (if p.tag == "" && p.digest == "" then "latest" else p.tag)
      && i.digest == p.digest
  {
    ReadsIsMatch(p, s);
  }

  /** And it rejects what cannot be read at all. */
  lemma ParseRejects(s: string, valid: string -> bool)
    requires forall p :: !Reads(p, s)
    ensures Parse(s, valid).None?
  {
    if Match(s).Some? { ReadsIsMatch(Match(s).value, s); }
  }

  /** A name and a tag, with no slash: an official image of the default registry. */
  lemma ShortReference(name: string, tag: string, valid: string -> bool)
    requires name != "" && ':' !in name && '@' !in name && '/' !in name
    requires 1 <= |tag| <= 128 && forall i | 0 <= i < |tag| :: TagChar(tag[i])
    ensures Parse(name + (":" + tag), valid) == Some(Image("docker.io", "library/" + name, tag, ""))
  {
    var p, s := Parts("", name, tag, ""), name + (":" + tag);
    assert Marked(':', tag) + Marked('@', "") == ":" + tag;
    assert '/' !in tag && '/' !in s;
    forall q | Text(q) == s ensures q.registry == "" { RegistryNeedsSlash(q); }
    ParseExactly(p, s, valid);
  }

  lemma RegistryNeedsSlash(q: Parts)
    ensures q.registry != "" ==> '/' in Text(q)
  {
    if q.registry != "" { assert Text(q)[|q.registry|] == '/'; }
  }

  /** The characters of a tag, one by one. */
  lemma TagCharacters(c: char)
    ensures TagChar(c) <==> c in {
      'a', 'b', 'c', 'd', 'e', 'f', 'g', 'h', 'i', 'j', 'k', 'l', 'm',
      'n', 'o', 'p', 'q', 'r', 's', 't', 'u', 'v', 'w', 'x', 'y', 'z',
      'A', 'B', 'C', 'D', 'E', 'F', 'G', 'H', 'I', 'J', 'K', 'L', 'M',
      'N', 'O', 'P', 'Q', 'R', 'S', 'T', 'U', 'V', 'W', 'X', 'Y', 'Z',
      '0', '1', '2', '3', '4', '5', '6', '7', '8', '9', '-', '_', '.'}
  {}

  /** What each group of the expression may match. */
  lemma GroupsExactly(s: string)
    ensures RegistryOk(s) <==> '/' !in s && exists a: string, m, b: string ::
      s == a + ([m] + b) && a != "" && b != "" && m in {'.', ':'}
    ensures NamespaceOk(s) <==> s != "" && ':' !in s && '@' !in s
    ensures TagOk(s) <==> 1 <= |s| <= 128 && forall c <- s :: TagChar(c)
    ensures DigestOk(s) <==> s != "" && '\n' !in s
  {
    if i :| 1 <= i < |s| - 1 && (s[i] == '.' || s[i] == ':') {
      Cut(s, i);
      assert s == s[..i] + ([s[i]] + s[i + 1..]);
    }
    if a: string, m, b: string :| s == a + ([m] + b) && a != "" && b != "" && m in {'.', ':'} {
      assert s[|a|] == m && 1 <= |a| < |s| - 1;
    }
  }

  lemma PrintIsText(i: Image)
    requires i.registry != ""
    ensures Print(i) == Text(PartsOf(i))
  {}

  lemma NormalRoundTrip(i: Image, valid: string -> bool)
    requires Normal(i, valid)
    ensures Parse(Print(i), valid) == Some(i)
  {
    PrintIsText(i);
    MatchComplete(PartsOf(i));
  }

  /** Parsing what was printed gives the same image back, whatever reference it was parsed from. */
  lemma PrintParse(s: string, valid: string -> bool)
    requires Parse(s, valid).Some?
    ensures Parse(Print(Parse(s, valid).value), valid) == Parse(s, valid)
  {
    ParseNormal(s, valid);
    NormalRoundTrip(Parse(s, valid).value, valid);
  }

  /** Exactly the normal images survive printing and parsing. */
  lemma RoundTripIffNormal(i: Image, valid: string -> bool)
    ensures Parse(Print(i), valid) == Some(i) <==> Normal(i, valid)
  {
    if Normal(i, valid) {
      NormalRoundTrip(i, valid);
    } else if Parse(Print(i), valid) == Some(i) {
      ParseNormal(Print(i), valid);
    }
  }

  /** Different images, once parsed, print differently. */
  lemma PrintInjective(s: string, t: string, valid: string -> bool)
    requires Parse(s, valid).Some? && Parse(t, valid).Some?
    requires Print(Parse(s, valid).value) == Print(Parse(t, valid).value)
    ensures Parse(s, valid) == Parse(t, valid)
  {
    PrintParse(s, valid);
    PrintParse(t, valid);
  }
}
