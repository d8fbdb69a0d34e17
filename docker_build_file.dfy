/** The grammar of a Docker image reference, `[registry/]name[:version]`,
    and of the `FROM <image>` clause of a Dockerfile. Each token is matched
    greedily from a position in the text, as its regular expression would be,
    and a matched token is never given back (no backtracking). Inside an
    image reference no whitespace is skipped; after `FROM` it is. */
module DockerBuildFile {
  import opened JsValues

  /** `DockerImage`: `registry` and `version` are undefined when absent. */
  datatype DockerImage = DockerImage(registry: Option<string>, name: string, version: Option<string>)

  /* ---------------- character classes ---------------- */

  predicate IsLowerAlnum(c: char)
  {
    'a' <= c <= 'z' || '0' <= c <= '9'
  }

  predicate IsSeparator(c: char)
  {
    c == '.' || c == '_' || c == '-'
  }

  predicate IsNameChar(c: char)
  {
    IsLowerAlnum(c) || IsSeparator(c)
  }

  /** `[a-zA-Z0-9._-]` */
  predicate IsVersionChar(c: char)
  {
    IsNameChar(c) || 'A' <= c <= 'Z'
  }

  /** The characters of JavaScript's `\s`: the ASCII spaces and controls
      tab to carriage return, and the Unicode space separators. */
  predicate IsWhitespace(c: char)
  {
    || c == ' ' || '\t' <= c <= '\r'
    || c == '\U{00A0}' || c == '\U{1680}' || '\U{2000}' <= c <= '\U{200A}'
    || c == '\U{2028}' || c == '\U{2029}' || c == '\U{202F}' || c == '\U{205F}'
    || c == '\U{3000}' || c == '\U{FEFF}'
  }

  /* ---------------- tokens ---------------- */

  /** Inside the span ending at `j`, position `k` holds a name character, and
      a separator there is followed by a lower-case letter or digit. */
  ghost predicate SeparatedAt(s: string, k: nat, j: nat)
    requires k < j <= |s|
  {
    IsNameChar(s[k]) && (IsSeparator(s[k]) ==> k + 1 < j && IsLowerAlnum(s[k + 1]))
  }

  /** `s[i..j]` matches `[a-z0-9]+(?:[._-][a-z0-9]+)*`, the registry and name
      token: runs of lower-case letters and digits joined by single separators. */
  ghost predicate NameTokenAt(s: string, i: nat, j: nat)
  {
    i < j <= |s| && IsLowerAlnum(s[i]) && forall k :: i <= k < j ==> SeparatedAt(s, k, j)
  }

  ghost predicate IsNameToken(t: string)
  {
    NameTokenAt(t, 0, |t|)
  }

  /** `[a-zA-Z0-9._-]+`, the version token. */
  ghost predicate IsVersionToken(t: string)
  {
    |t| > 0 && forall k :: 0 <= k < |t| ==> IsVersionChar(t[k])
  }

  /** A name token inside a text is a name token on its own. */
  lemma NameTokenSlice(s: string, i: nat, j: nat)
    requires i <= j <= |s|
    ensures NameTokenAt(s, i, j) <==> IsNameToken(s[i..j])
  {
    var t := s[i..j];
    forall k | i <= k < j
      ensures SeparatedAt(s, k, j) <==> SeparatedAt(t, k - i, |t|)
    {
      assert t[k - i] == s[k];
      if k + 1 < j {
        assert t[k + 1 - i] == s[k + 1];
      }
    }
    if i < j {
      assert t[0] == s[i];
    }
    assert (forall k :: i <= k < j ==> SeparatedAt(s, k, j))
       <==> (forall k :: 0 <= k < |t| ==> SeparatedAt(t, k, |t|)) by {
      forall k | 0 <= k < |t|
        ensures SeparatedAt(t, k, |t|) <==> SeparatedAt(s, k + i, j)
      {
      }
    }
  }

  /** Where a greedy name match ends: at the end of the text, or before a
      character that is neither a letter or digit nor a separator followed by one. */
  ghost predicate StopsAt(s: string, n: nat)
  {
    n <= |s| && (n == |s| || (!IsLowerAlnum(s[n]) && (!IsSeparator(s[n]) || n + 1 == |s| || !IsLowerAlnum(s[n + 1]))))
  }

  /** End of the run of `[a-z0-9]` that starts at `i`. */
  function AlnumEnd(s: string, i: nat): (e: nat)
    requires i <= |s|
    ensures i <= e <= |s|
    ensures forall k :: i <= k < e ==> IsLowerAlnum(s[k])
    ensures e < |s| ==> !IsLowerAlnum(s[e])
    decreases |s| - i
  {
    if i < |s| && IsLowerAlnum(s[i]) then AlnumEnd(s, i + 1) else i
  }

  /** End of the greedy match of `(?:[._-][a-z0-9]+)*` at `i`, right after a run of letters and digits. */
  function SeparatedEnd(s: string, i: nat): (e: nat)
    requires i <= |s|
    requires i == |s| || !IsLowerAlnum(s[i])
    ensures i <= e <= |s| && StopsAt(s, e)
    ensures forall k :: i <= k < e ==> SeparatedAt(s, k, e)
    decreases |s| - i
  {
    if i + 1 < |s| && IsSeparator(s[i]) && IsLowerAlnum(s[i + 1]) then
      var a := AlnumEnd(s, i + 1);
      var e := SeparatedEnd(s, a);
      assert forall k :: i <= k < a ==> SeparatedAt(s, k, e);
      e
    else
      i
  }

  /** The greedy match of the name regular expression at `i`: where it ends,
      or `None` when it does not match there. */
  function MatchName(s: string, i: nat): (r: Option<nat>)
    requires i <= |s|
    ensures r.None? <==> (i == |s| || !IsLowerAlnum(s[i]))
    ensures r.Some? ==> NameTokenAt(s, i, r.value) && StopsAt(s, r.value)
  {
    var a := AlnumEnd(s, i);
    if a == i then None
    else
      assert IsLowerAlnum(s[i]);
      var e := SeparatedEnd(s, a);
      assert forall k :: i <= k < a ==> SeparatedAt(s, k, e);
      Some(e)
  }

  /** The greedy name match is the longest name token that starts at `i`. */
  lemma MatchNameLongest(s: string, i: nat)
    requires i <= |s| && MatchName(s, i).Some?
    ensures forall j :: MatchName(s, i).value < j <= |s| ==> !NameTokenAt(s, i, j)
  {
    var n := MatchName(s, i).value;
    forall j | n < j <= |s|
      ensures !NameTokenAt(s, i, j)
    {
      assert !SeparatedAt(s, n, j);
    }
  }

  /** A name token followed by a character that cannot continue it is matched exactly. */
  lemma MatchNameExact(s: string, i: nat, j: nat)
    requires NameTokenAt(s, i, j)
    requires j == |s| || !IsNameChar(s[j])
    ensures MatchName(s, i) == Some(j)
  {
    forall n | j < n <= |s|
      ensures !NameTokenAt(s, i, n)
    {
      assert !SeparatedAt(s, j, n);
    }
    MatchNameLongest(s, i);
  }

  /** End of the run of version characters that starts at `i`. */
  function VersionEnd(s: string, i: nat): (e: nat)
    requires i <= |s|
    ensures i <= e <= |s|
    ensures forall k :: i <= k < e ==> IsVersionChar(s[k])
    ensures e < |s| ==> !IsVersionChar(s[e])
    decreases |s| - i
  {
    if i < |s| && IsVersionChar(s[i]) then VersionEnd(s, i + 1) else i
  }

  /** End of the run of whitespace that starts at `i`. */
  function WhitespaceEnd(s: string, i: nat): (e: nat)
    requires i <= |s|
    ensures i <= e <= |s|
    ensures forall k :: i <= k < e ==> IsWhitespace(s[k])
    ensures e < |s| ==> !IsWhitespace(s[e])
    decreases |s| - i
  {
    if i < |s| && IsWhitespace(s[i]) then WhitespaceEnd(s, i + 1) else i
  }

  /* ---------------- image references ---------------- */

  /** An image whose parts are tokens of their kinds. */
  ghost predicate WellFormed(image: DockerImage)
  {
    && (image.registry.Some? ==> IsNameToken(image.registry.value))
    && IsNameToken(image.name)
    && (image.version.Some? ==> IsVersionToken(image.version.value))
  }

  /** The text of an optional registry: the registry and a slash, or nothing. */
  function RegistryText(registry: Option<string>): string
  {
    if registry.Some? then registry.value + "/" else ""
  }

  /** The text of an optional version: a colon and the version, or nothing. */
  function VersionText(version: Option<string>): string
  {
    if version.Some? then ":" + version.value else ""
  }

  /** The text of an image reference. */
  function Render(image: DockerImage): string
  {
    RegistryText(image.registry) + image.name + VersionText(image.version)
  }

  /** The optional `registry "/"` group (`REGISTRY`) at the start of `s`: the
      registry and the position after the slash, or `None` and 0. */
  function ParseRegistry(s: string): (r: (Option<string>, nat))
    ensures r.1 <= |s|
    ensures r.0.None? ==> r.1 == 0
    ensures r.0.Some? ==> r.1 > 0 && NameTokenAt(s, 0, r.1 - 1) && s[r.1 - 1] == '/' && r.0.value == s[..r.1 - 1]
  {
    match MatchName(s, 0)
    case Some(k) =>
      if k < |s| && s[k] == '/' then (Some(s[..k]), k + 1) else (None, 0)
    case None => (None, 0)
  }

  /** The registry group spans the text of the registry it yields, a name token. */
  lemma ParseRegistryText(s: string)
    ensures s[..ParseRegistry(s).1] == RegistryText(ParseRegistry(s).0)
    ensures ParseRegistry(s).0.Some? ==> IsNameToken(ParseRegistry(s).0.value)
  {
    var (reg, i) := ParseRegistry(s);
    if reg.Some? {
      NameTokenSlice(s, 0, i - 1);
      assert s[0..i - 1] == s[..i - 1];
      assert s[..i] == s[..i - 1] + "/";
    }
  }

  /** The optional `":" version` group (`VersionGrammar`) at `j`: the version
      and the position after it, or `None` and `j`. */
  function ParseVersion(s: string, j: nat): (r: (Option<string>, nat))
    requires j <= |s|
    ensures j <= r.1 <= |s|
    ensures r.0.Some? <==> j + 1 < |s| && s[j] == ':' && IsVersionChar(s[j + 1])
    ensures r.0.Some? ==> r.1 == VersionEnd(s, j + 1) && r.0.value == s[j + 1..r.1]
    ensures r.0.None? ==> r.1 == j
  {
    if j < |s| && s[j] == ':' && VersionEnd(s, j + 1) > j + 1 then
      var e := VersionEnd(s, j + 1);
      (Some(s[j + 1..e]), e)
    else (None, j)
  }

  /** The version group spans the text of the version it yields, a version token. */
  lemma ParseVersionText(s: string, j: nat)
    requires j <= |s|
    ensures s[j..ParseVersion(s, j).1] == VersionText(ParseVersion(s, j).0)
    ensures ParseVersion(s, j).0.Some? ==> IsVersionToken(ParseVersion(s, j).0.value)
  {
    var (ver, e) := ParseVersion(s, j);
    if ver.Some? {
      assert s[j..e] == ":" + s[j + 1..e];
    }
  }

  /** The name and the optional version of an image reference, from `i` on,
      with the registry already read: the image and the position after it. */
  function ParseNameAndVersion(s: string, registry: Option<string>, i: nat): (r: Option<(DockerImage, nat)>)
    requires i <= |s|
    ensures r.None? <==> MatchName(s, i).None?
    ensures r.Some? ==> i < r.value.1 <= |s| && r.value.0.registry == registry
  {
    match MatchName(s, i)
    case None => None
    case Some(j) =>
      var ver := ParseVersion(s, j);
      Some((DockerImage(registry, s[i..j], ver.0), ver.1))
  }

  /** `versionedDockerImageRefGrammar` at the start of `s`: the image and the
      number of characters it spans, or `None` when no name follows the
      optional registry. */
  function ParseImageRef(s: string): (r: Option<(DockerImage, nat)>)
    ensures r.None? <==> MatchName(s, ParseRegistry(s).1).None?
    ensures r.Some? ==> r.value.1 <= |s|
  {
    var reg := ParseRegistry(s);
    ParseNameAndVersion(s, reg.0, reg.1)
  }

  /** Helper: a prefix cut into three consecutive slices. */
  lemma Slices3(s: string, i: nat, j: nat, k: nat, x: string, y: string, z: string)
    requires i <= j <= k <= |s|
    requires s[..i] == x && s[i..j] == y && s[j..k] == z
    ensures s[..k] == x + y + z
  {
    assert s[..k] == s[..i] + s[i..j] + s[j..k];
  }

  /** What an image reference consumes is exactly the text of the image it yields. */
  lemma ParseImageRefSpansText(s: string)
    requires ParseImageRef(s).Some?
    ensures s[..ParseImageRef(s).value.1] == Render(ParseImageRef(s).value.0)
  {
    var reg := ParseRegistry(s);
    var j := MatchName(s, reg.1).value;
    var ver := ParseVersion(s, j);
    ParseRegistryText(s);
    ParseVersionText(s, j);
    Slices3(s, reg.1, j, ver.1, RegistryText(reg.0), s[reg.1..j], VersionText(ver.0));
  }

  /** The image an image reference yields is made of tokens of their kinds. */
  lemma ParseImageRefWellFormed(s: string)
    requires ParseImageRef(s).Some?
    ensures WellFormed(ParseImageRef(s).value.0)
  {
    var i := ParseRegistry(s).1;
    var j := MatchName(s, i).value;
    NameTokenSlice(s, i, j);
    ParseRegistryText(s);
    ParseVersionText(s, j);
  }

  /** An image reference consumes no whitespace, so a reference ends at the
      first blank after it. */
  lemma NoWhitespaceInImageRef(s: string)
    requires ParseImageRef(s).Some?
    ensures forall k :: 0 <= k < ParseImageRef(s).value.1 ==> !IsWhitespace(s[k])
  {
    var reg := ParseRegistry(s);
    var i := reg.1;
    var j := MatchName(s, i).value;
    var e := ParseImageRef(s).value.1;
    forall k | 0 <= k < e
      ensures !IsWhitespace(s[k])
    {
      if k < i {
        if k < i - 1 {
          assert SeparatedAt(s, k, i - 1);
        }
      } else if k < j {
        assert SeparatedAt(s, k, j);
      }
    }
  }

  /** Helper: a name token at `i` followed by a character that cannot continue it is matched exactly. */
  lemma NameAt(s: string, i: nat, name: string)
    requires IsNameToken(name) && i + |name| <= |s| && s[i..i + |name|] == name
    requires i + |name| == |s| || !IsNameChar(s[i + |name|])
    ensures MatchName(s, i) == Some(i + |name|)
  {
    NameTokenSlice(s, i, i + |name|);
    MatchNameExact(s, i, i + |name|);
  }

  /** Helper: the text of an optional version, from `j` to the end, reads back as that version. */
  lemma VersionAt(s: string, j: nat, version: Option<string>)
    requires j <= |s| && s[j..] == VersionText(version)
    requires version.Some? ==> IsVersionToken(version.value)
    ensures ParseVersion(s, j) == (version, |s|)
  {
    if version.Some? {
      var v := version.value;
      assert s[j] == ':';
      forall k | j + 1 <= k < |s|
        ensures IsVersionChar(s[k])
      {
        assert s[k] == s[j..][k - j] == v[k - j - 1];
      }
      assert VersionEnd(s, j + 1) == |s|;
      assert s[j + 1..|s|] == v;
    } else {
      assert j == |s|;
    }
  }

  /** Helper: the two pieces of a suffix made of two texts. */
  lemma SuffixSlices(s: string, i: nat, a: string, b: string)
    requires i <= |s| && s[i..] == a + b
    ensures i + |a| <= |s| && s[i..i + |a|] == a && s[i + |a|..] == b
  {
    assert s[i..i + |a|] == (a + b)[..|a|];
    assert s[i + |a|..] == (a + b)[|a|..];
  }

  /** Helper: a name followed by the text of an optional version, from `i` to
      the end, reads back as that name and that version. */
  lemma NameAndVersionAt(s: string, registry: Option<string>, i: nat, name: string, version: Option<string>)
    requires i <= |s| && s[i..] == name + VersionText(version)
    requires IsNameToken(name)
    requires version.Some? ==> IsVersionToken(version.value)
    ensures MatchName(s, i) == Some(i + |name|)
    ensures ParseNameAndVersion(s, registry, i) == Some((DockerImage(registry, name, version), |s|))
  {
    var j := i + |name|;
    SuffixSlices(s, i, name, VersionText(version));
    if j < |s| {
      assert s[j] == s[j..][0];
    }
    NameAt(s, i, name);
    VersionAt(s, j, version);
  }

  /** Helper: a registry token followed by a slash is read as the registry. */
  lemma RegistryAt(s: string, reg: string)
    requires IsNameToken(reg) && |reg| < |s| && s[..|reg|] == reg && s[|reg|] == '/'
    ensures ParseRegistry(s) == (Some(reg), |reg| + 1)
  {
    assert s[0..|reg|] == reg;
    NameTokenSlice(s, 0, |reg|);
    MatchNameExact(s, 0, |reg|);
  }

  /** Helper: a registry, a slash, then a name and an optional version to the
      end of the text read back as that image. */
  lemma RegistryRefAt(s: string, reg: string, name: string, version: Option<string>)
    requires IsNameToken(reg) && IsNameToken(name)
    requires version.Some? ==> IsVersionToken(version.value)
    requires |reg| < |s| && s[..|reg|] == reg && s[|reg|] == '/'
    requires s[|reg| + 1..] == name + VersionText(version)
    ensures ParseImageRef(s) == Some((DockerImage(Some(reg), name, version), |s|))
  {
    var i := |reg| + 1;
    assert ParseRegistry(s) == (Some(reg), i) by {
      RegistryAt(s, reg);
    }
    assert ParseNameAndVersion(s, Some(reg), i) == Some((DockerImage(Some(reg), name, version), |s|)) by {
      NameAndVersionAt(s, Some(reg), i, name, version);
    }
  }

  /** Helper: the pieces of a text made of a registry, a slash and the rest. */
  lemma RegistrySlices(reg: string, rest: string)
    ensures var s := reg + "/" + rest;
            |reg| < |s| && s[..|reg|] == reg && s[|reg|] == '/' && s[|reg| + 1..] == rest
  {
    var s := reg + "/" + rest;
    assert s[..|reg|] == reg;
    assert s[|reg| + 1..] == rest;
  }

  /** Helper: the round trip of an image with a registry. */
  lemma RegistryImageRoundTrip(reg: string, name: string, version: Option<string>)
    requires IsNameToken(reg) && IsNameToken(name)
    requires version.Some? ==> IsVersionToken(version.value)
    ensures var s := reg + "/" + (name + VersionText(version));
            ParseImageRef(s) == Some((DockerImage(Some(reg), name, version), |s|))
  {
    RegistrySlices(reg, name + VersionText(version));
    RegistryRefAt(reg + "/" + (name + VersionText(version)), reg, name, version);
  }

  /** Helper: the round trip of an image without a registry. */
  lemma BareImageRoundTrip(name: string, version: Option<string>)
    requires IsNameToken(name)
    requires version.Some? ==> IsVersionToken(version.value)
    ensures var s := name + VersionText(version);
            ParseImageRef(s) == Some((DockerImage(None, name, version), |s|))
  {
    var s := name + VersionText(version);
    assert s[0..] == s;
    NameAndVersionAt(s, None, 0, name, version);
    assert s[0..|name|] == name;
    assert ParseRegistry(s) == (None, 0);
  }

  /** Every well-formed image reads back from its own text, exactly. */
  lemma ImageRefRoundTrip(image: DockerImage)
    requires WellFormed(image)
    ensures ParseImageRef(Render(image)) == Some((image, |Render(image)|))
  {
    if image.registry.Some? {
      assert Render(image) == image.registry.value + "/" + (image.name + VersionText(image.version));
      RegistryImageRoundTrip(image.registry.value, image.name, image.version);
    } else {
      assert Render(image) == image.name + VersionText(image.version);
      BareImageRoundTrip(image.name, image.version);
    }
  }

  /* ---------------- FROM clause ---------------- */

  /** `fromDockerImageGrammar` at the start of `s`: the literal `FROM`,
      optional whitespace, then an image reference as `parentImage`; the
      image and the position after it. */
  function ParseFrom(s: string): (r: Option<(DockerImage, nat)>)
    ensures r.Some? ==> |s| >= 4 && s[..4] == "FROM" && r.value.1 <= |s|
    ensures r.None? <==> |s| < 4 || s[..4] != "FROM" || ParseImageRef(s[WhitespaceEnd(s, 4)..]).None?
  {
    if |s| < 4 || s[..4] != "FROM" then None
    else
      var w := WhitespaceEnd(s, 4);
      match ParseImageRef(s[w..])
      case None => None
      case Some((image, n)) => Some((image, w + n))
  }

  /** What a FROM clause consumes: `FROM`, a run of whitespace, and the text
      of a well-formed parent image. */
  lemma ParseFromParts(s: string)
    requires ParseFrom(s).Some?
    ensures var (image, e) := ParseFrom(s).value;
            var w := WhitespaceEnd(s, 4);
            && w <= e
            && (forall k :: 4 <= k < w ==> IsWhitespace(s[k]))
            && s[w..e] == Render(image)
            && WellFormed(image)
  {
    var w := WhitespaceEnd(s, 4);
    var t := s[w..];
    ParseImageRefSpansText(t);
    ParseImageRefWellFormed(t);
    var n := ParseImageRef(t).value.1;
    assert s[w..w + n] == t[..n];
  }

  /** `FROM` and one space before any well-formed image read back as that parent image. */
  lemma FromRoundTrip(image: DockerImage)
    requires WellFormed(image)
    ensures ParseFrom("FROM " + Render(image)) == Some((image, 5 + |Render(image)|))
  {
    var text := Render(image);
    var s := "FROM " + text;
    assert s[..4] == "FROM";
    assert s[4] == ' ';
    FirstCharOfRender(image);
    assert s[5] == text[0];
    assert WhitespaceEnd(s, 4) == 5;
    assert s[5..] == text;
    ImageRefRoundTrip(image);
  }

  /** Helper: a well-formed image's text starts with a letter or digit. */
  lemma FirstCharOfRender(image: DockerImage)
    requires WellFormed(image)
    ensures |Render(image)| > 0 && IsLowerAlnum(Render(image)[0])
  {
    if image.registry.Some? {
      assert Render(image)[0] == image.registry.value[0];
    } else {
      assert Render(image)[0] == image.name[0];
    }
  }

  /* ---------------- firstMatch ---------------- */

  /** `firstMatch`: the first position from `p` on where `parse` matches, with
      what it yields there. */
  function FirstMatch(parse: string -> Option<(DockerImage, nat)>, s: string, p: nat): (r: Option<(nat, DockerImage, nat)>)
    requires p <= |s|
    ensures r.Some? ==> p <= r.value.0 <= |s| && parse(s[r.value.0..]) == Some((r.value.1, r.value.2))
    ensures r.Some? ==> forall q :: p <= q < r.value.0 ==> parse(s[q..]).None?
    ensures r.None? ==> forall q :: p <= q <= |s| ==> parse(s[q..]).None?
    decreases |s| - p
  {
    match parse(s[p..])
    case Some((image, n)) => Some((p, image, n))
    case None => if p == |s| then None else FirstMatch(parse, s, p + 1)
  }

  /** A parse that succeeds at the start of the text is the first match. */
  lemma FirstMatchAtStart(parse: string -> Option<(DockerImage, nat)>, s: string)
    requires parse(s).Some?
    ensures FirstMatch(parse, s, 0) == Some((0, parse(s).value.0, parse(s).value.1))
  {
    assert s[0..] == s;
  }

  /** The image of the sample reference "reg/test:v1.0". */
  const SampleImage := DockerImage(Some("reg"), "test", Some("v1.0"))

  /** Helper: the sample image is well formed and renders as "reg/test:v1.0". */
  lemma SampleImageText()
    ensures WellFormed(SampleImage) && Render(SampleImage) == "reg/test:v1.0"
  {
    NameTokenLiteral("reg");
    NameTokenLiteral("test");
  }

  /** Helper: the sample clause is `FROM`, a space and the sample image's text. */
  lemma SampleClauseText()
    ensures WellFormed(SampleImage) && "FROM " + Render(SampleImage) == "FROM reg/test:v1.0"
  {
    SampleImageText();
    assert "FROM " + "reg/test:v1.0" == "FROM reg/test:v1.0";
  }

  /** The reference "reg/test:v1.0" has registry "reg", name "test" and version "v1.0". */
  lemma ParsesRegistryNameVersion()
    ensures FirstMatch(ParseImageRef, "reg/test:v1.0", 0) == Some((0, SampleImage, 13))
  {
    assert ParseImageRef("reg/test:v1.0") == Some((SampleImage, 13)) by {
      SampleImageText();
      ImageRefRoundTrip(SampleImage);
    }
    FirstMatchAtStart(ParseImageRef, "reg/test:v1.0");
  }

  /** The clause "FROM reg/test:v1.0" names the same parent image. */
  lemma ParsesFromClause()
    ensures FirstMatch(ParseFrom, "FROM reg/test:v1.0", 0) == Some((0, SampleImage, 18))
  {
    assert ParseFrom("FROM reg/test:v1.0") == Some((SampleImage, 18)) by {
      SampleClauseText();
      FromRoundTrip(SampleImage);
    }
    FirstMatchAtStart(ParseFrom, "FROM reg/test:v1.0");
  }

  /** Helper: a text of lower-case letters and digits is a name token. */
  lemma NameTokenLiteral(t: string)
    requires |t| > 0 && forall k :: 0 <= k < |t| ==> IsLowerAlnum(t[k])
    ensures IsNameToken(t)
  {
  }
}
