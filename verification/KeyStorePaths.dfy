/**
 Names of key-store entries: validation in the gateway and in the plugin, and the backend paths built from them.
 */
module KeyStorePaths {
  import opened Outcomes
  import opened Text
  import opened KeyNames
  import opened Words
  import opened Hex

  // ---------- splitting and joining at slashes ----------

  /** `strings.Split(s, "/")` and `str::split('/')`. */
  function Split(s: string): (parts: seq<string>)
    ensures |parts| >= 1
  {
    if s == "" then [""]
    else if s[0] == '/' then [""] + Split(s[1..])
    else
      var rest := Split(s[1..]);
      [[s[0]] + rest[0]] + rest[1..]
  }

  function Join(parts: seq<string>): (s: string) {
    if parts == [] then ""
    else if |parts| == 1 then parts[0]
    else parts[0] + "/" + Join(parts[1..])
  }

  predicate NoSlash(part: string) {
    '/' !in part
  }

  ghost predicate NoSlashes(parts: seq<string>) {
    forall i :: 0 <= i < |parts| ==> NoSlash(parts[i])
  }

  lemma {:induction false} SplitHasNoSlashes(s: string)
    ensures NoSlashes(Split(s))
  {
    if s != "" {
      SplitHasNoSlashes(s[1..]);
    }
  }

  lemma {:induction false} JoinOfSplit(s: string)
    ensures Join(Split(s)) == s
  {
    if s != "" {
      var rest := Split(s[1..]);
      JoinOfSplit(s[1..]);
      if s[0] == '/' {
        assert ([""] + rest)[1..] == rest;
        assert Join([""] + rest) == "" + "/" + Join(rest);
      } else {
        var parts := [[s[0]] + rest[0]] + rest[1..];
        assert parts[1..] == rest[1..];
        assert Join(parts) == [s[0]] + Join(rest);
      }
    }
  }

  lemma {:induction false} SplitOfPart(part: string)
    requires NoSlash(part)
    ensures Split(part) == [part]
  {
    if part != "" {
      assert part[0] in part;
      assert NoSlash(part[1..]);
      SplitOfPart(part[1..]);
      assert part == [part[0]] + part[1..];
    }
  }

  lemma {:induction false} SplitOfConcat(a: string, b: string)
    ensures Split(a + "/" + b) == Split(a) + Split(b)
  {
    var s := a + "/" + b;
    if a == "" {
      assert s[1..] == b;
    } else {
      assert s[0] == a[0] && s[1..] == a[1..] + "/" + b;
      SplitOfConcat(a[1..], b);
    }
  }

  lemma {:induction false} SplitOfJoin(parts: seq<string>)
    requires parts != [] && NoSlashes(parts)
    ensures Split(Join(parts)) == parts
  {
    SplitOfPart(parts[0]);
    if |parts| > 1 {
      SplitOfJoin(parts[1..]);
      SplitOfConcat(parts[0], Join(parts[1..]));
      assert parts == [parts[0]] + parts[1..];
    }
  }

  // ---------- validation ----------

  const MAX_NAME: nat := 256

  /** The character class of `keyStoreSegmentRe`. */
  predicate IsSegmentChar(c: char) {
    'A' <= c <= 'Z' || 'a' <= c <= 'z' || '0' <= c <= '9' || c == '.' || c == '_' || c == '-'
  }

  /** `validateKeyStoreSegment`. */
  function ValidateSegment(segment: string): Result<()> {
    if segment == "" || segment == "." || segment == ".." then Err("contains an invalid path segment")
    else if !All(IsSegmentChar, segment) then Err("contains unsupported characters")
    else Ok(())
  }

  predicate IsSegment(s: string) {
    ValidateSegment(s).Ok?
  }

  function ValidateSegments(segments: seq<string>): (r: Result<()>)
    ensures r.Ok? <==> forall i :: 0 <= i < |segments| ==> IsSegment(segments[i])
  {
    if segments == [] then Ok(())
    else if ValidateSegment(segments[0]).Err? then ValidateSegment(segments[0])
    else ValidateSegments(segments[1..])
  }

  predicate SlashAtEdge(s: string) {
    s != "" && (s[0] == '/' || s[|s| - 1] == '/')
  }

  /** `normalizeKeyStoreName`. */
  function NormalizeName(value: string): Result<string> {
    var name := TrimSpace(value);
    if name == "" then Err("name is required")
    else if ByteLen(name) > MAX_NAME then Err("name must be at most 256 characters")
    else if SlashAtEdge(name) then Err("name must not start or end with /")
    else
      match ValidateSegments(Split(name))
      case Err(m) => Err(m)
      case Ok(_) => Ok(name)
  }

  /** `normalizeKeyStorePrefix`. */
  function NormalizePrefix(value: string): Result<string> {
    var prefix := Trim(IsSlash, TrimSpace(value));
    if prefix == "" then Ok("")
    else if ByteLen(prefix) > MAX_NAME then Err("prefix must be at most 256 characters")
    else
      match ValidateSegments(Split(prefix))
      case Err(m) => Err(m)
      case Ok(_) => Ok(prefix)
  }

  /** `validate_key_store_segment`. */
  function GatewaySegment(segment: string): Result<()> {
    if segment == "" || segment == "." || segment == ".." then Err("contains an invalid path segment")
    else if !All((c: char) => IsAsciiAlphanumeric(c) || c == '-' || c == '_' || c == '.', segment)
      then Err("contains unsupported characters")
    else Ok(())
  }

  function GatewaySegments(segments: seq<string>): (r: Result<()>)
    ensures r.Ok? <==> forall i :: 0 <= i < |segments| ==> GatewaySegment(segments[i]).Ok?
  {
    if segments == [] then Ok(())
    else if GatewaySegment(segments[0]).Err? then GatewaySegment(segments[0])
    else GatewaySegments(segments[1..])
  }

  /** `validate_key_store_name`. */
  function GatewayName(value: string): Result<()> {
    var trimmed := TrimSpace(value);
    if GatewayRequired(trimmed).Err? then Err("is required")
    else if ByteLen(trimmed) > MAX_NAME then Err("must be at most 256 characters")
    else if SlashAtEdge(trimmed) then Err("must not start or end with /")
    else GatewaySegments(Split(trimmed))
  }

  /** `validate_key_store_prefix`. */
  function GatewayPrefix(value: string): Result<()> {
    var trimmed := Trim(IsSlash, TrimSpace(value));
    if trimmed == "" then Ok(())
    else if ByteLen(trimmed) > MAX_NAME then Err("must be at most 256 characters")
    else GatewaySegments(Split(trimmed))
  }

  /** Gateway and plugin accept the same names and the same prefixes. */
  lemma NamesAgree(value: string)
    ensures GatewayName(value).Ok? <==> NormalizeName(value).Ok?
    ensures GatewayPrefix(value).Ok? <==> NormalizePrefix(value).Ok?
  {
    hide TrimSpace, Trim, Split, ByteLen, SlashAtEdge;
    TrimSpaceTwice(value);
    SegmentsAgree(Split(TrimSpace(value)));
    SegmentsAgree(Split(Trim(IsSlash, TrimSpace(value))));
  }

  lemma SegmentsAgree(segments: seq<string>)
    ensures GatewaySegments(segments).Ok? <==> ValidateSegments(segments).Ok?
  {
    hide GatewaySegment, IsSegment;
    forall i | 0 <= i < |segments| ensures GatewaySegment(segments[i]).Ok? <==> IsSegment(segments[i]) {
      SegmentAgrees(segments[i]);
    }
  }

  lemma SegmentAgrees(s: string)
    ensures GatewaySegment(s).Ok? <==> IsSegment(s)
  {
    assert forall i :: 0 <= i < |s| ==>
      (IsSegmentChar(s[i]) <==> IsAsciiAlphanumeric(s[i]) || s[i] == '-' || s[i] == '_' || s[i] == '.');
  }

  // ---------- accepted names ----------

  ghost predicate AllSegments(parts: seq<string>) {
    forall i :: 0 <= i < |parts| ==> IsSegment(parts[i])
  }

  /** One to 256 characters, made of valid segments between single slashes. */
  ghost predicate IsName(s: string) {
    s != "" && |s| <= MAX_NAME && AllSegments(Split(s))
  }

  predicate IsNameChar(c: char) {
    IsSegmentChar(c) || c == '/'
  }

  lemma {:induction false} NameChars(s: string)
    requires forall i :: 0 <= i < |Split(s)| ==> All(IsSegmentChar, Split(s)[i])
    ensures All(IsNameChar, s)
  {
    if s != "" {
      var rest := Split(s[1..]);
      if s[0] == '/' {
        assert Split(s)[1..] == rest;
      } else {
        assert All(IsSegmentChar, Split(s)[0]) && Split(s)[0] == [s[0]] + rest[0];
        assert All(IsSegmentChar, rest[0]) by {
          assert forall k :: 0 <= k < |rest[0]| ==> rest[0][k] == Split(s)[0][k + 1];
        }
        assert Split(s)[1..] == rest[1..];
        assert s[0] == Split(s)[0][0];
      }
      assert forall i :: 0 <= i < |rest| ==> All(IsSegmentChar, rest[i]);
      NameChars(s[1..]);
    }
  }

  lemma NameCharIsPlain(c: char)
    requires IsNameChar(c)
    ensures c as int < 0x80 && !IsSpace(c)
  {
  }

  /** The first and the last character belong to the first and the last segment. */
  lemma {:induction false} EdgesOfSplit(s: string)
    requires s != ""
    ensures s[0] == '/' <==> Split(s)[0] == ""
    ensures s[|s| - 1] == '/' <==> Split(s)[|Split(s)| - 1] == ""
  {
    if |s| > 1 {
      EdgesOfSplit(s[1..]);
      assert s[1..][|s| - 2] == s[|s| - 1];
    } else {
      assert s[1..] == "";
    }
  }

  lemma SegmentChars(segments: seq<string>, i: nat)
    requires AllSegments(segments) && i < |segments|
    ensures segments[i] != "" && All(IsSegmentChar, segments[i])
  {
    assert IsSegment(segments[i]);
  }

  lemma NameCharsArePlain(s: string)
    requires AllSegments(Split(s))
    ensures forall i :: 0 <= i < |s| ==> s[i] as int < 0x80 && !IsSpace(s[i])
  {
    hide IsSpace, Split, IsNameChar, IsSegmentChar, IsSegment;
    forall i | 0 <= i < |Split(s)| ensures All(IsSegmentChar, Split(s)[i]) {
      SegmentChars(Split(s), i);
    }
    NameChars(s);
    forall i | 0 <= i < |s| ensures s[i] as int < 0x80 && !IsSpace(s[i]) {
      NameCharIsPlain(s[i]);
    }
  }

  lemma NoSlashAtEdge(s: string)
    requires s != "" && AllSegments(Split(s))
    ensures s[0] != '/' && s[|s| - 1] != '/'
  {
    hide Split, IsSegment, AllSegments, All;
    EdgesOfSplit(s);
    SegmentChars(Split(s), 0);
    SegmentChars(Split(s), |Split(s)| - 1);
  }

  /** Text made of valid segments needs no trimming and is as long in bytes as in characters. */
  lemma SegmentsArePlain(s: string)
    requires s != "" && AllSegments(Split(s))
    ensures TrimSpace(s) == s && Trim(IsSlash, s) == s && ByteLen(s) == |s| && !SlashAtEdge(s)
  {
    hide IsSpace, Split, AllSegments, Trim, ByteLen;
    NameCharsArePlain(s);
    AsciiLength(s);
    NoSlashAtEdge(s);
    assert Trimmed(IsSpace, s);
    TrimOfTrimmed(IsSpace, s);
    assert Trimmed(IsSlash, s);
    TrimOfTrimmed(IsSlash, s);
  }

  lemma {:induction false} WidthsAddUp(s: string)
    ensures |s| <= ByteLen(s)
  {
    if s != "" {
      WidthsAddUp(s[..|s| - 1]);
    }
  }

  /** A name is accepted, unchanged up to the spaces around it, exactly when it is made of valid segments. */
  lemma NameAccepted(value: string)
    ensures NormalizeName(value) == Ok(TrimSpace(value)) || NormalizeName(value).Err?
    ensures NormalizeName(value).Ok? <==> IsName(TrimSpace(value))
    ensures IsName(value) ==> NormalizeName(value) == Ok(value)
  {
    hide TrimSpace, Trim, ByteLen, Split, SlashAtEdge, IsSegment;
    var name := TrimSpace(value);
    WidthsAddUp(name);
    if name != "" && AllSegments(Split(name)) {
      SegmentsArePlain(name);
    }
    if IsName(value) {
      SegmentsArePlain(value);
    }
  }

  /** Likewise for prefixes, which may be empty and have slashes around them. */
  lemma PrefixAccepted(value: string)
    ensures var prefix := Trim(IsSlash, TrimSpace(value));
            && (NormalizePrefix(value) == Ok(prefix) || NormalizePrefix(value).Err?)
            && (NormalizePrefix(value).Ok? <==> prefix == "" || IsName(prefix))
  {
    hide TrimSpace, Trim, ByteLen, Split, SlashAtEdge, IsSegment;
    var prefix := Trim(IsSlash, TrimSpace(value));
    WidthsAddUp(prefix);
    if prefix != "" && AllSegments(Split(prefix)) {
      SegmentsArePlain(prefix);
    }
  }

  // ---------- backend paths ----------

  /** `keyStorePathParts`. */
  function PathParts(value: string): Result<seq<string>> {
    var trimmed := Trim(IsSlash, value);
    if trimmed == "" then Ok([])
    else
      match ValidateSegments(Split(trimmed))
      case Err(m) => Err("unsafe key-store path: " + m)
      case Ok(_) => Ok(Split(trimmed))
  }

  /** Splitting an accepted name succeeds, and joining its segments gives the name back. */
  lemma NameRoundTrip(name: string)
    requires IsName(name)
    ensures PathParts(name) == Ok(Split(name)) && AllSegments(Split(name)) && Join(Split(name)) == name
  {
    hide Trim, Split, IsSegment, Join;
    SegmentsArePlain(name);
    JoinOfSplit(name);
  }

  /** The stack of `path.Clean`: no empty or `.` elements, `..` resolved where it can be. */
  function Clean(rooted: bool, parts: seq<string>): (stack: seq<string>) {
    if parts == [] then []
    else
      var stack, x := Clean(rooted, parts[..|parts| - 1]), parts[|parts| - 1];
      if x == "" || x == "." then stack
      else if x == ".." then
        if stack != [] && stack[|stack| - 1] != ".." then stack[..|stack| - 1]
        else if rooted then stack
        else stack + [".."]
      else stack + [x]
  }

  function Render(rooted: bool, stack: seq<string>): string {
    (if rooted then "/" else "") + Join(stack)
  }

  /** `path.Clean`. */
  function CleanPath(path: string): string {
    var rooted := path != "" && path[0] == '/';
    var r := Render(rooted, Clean(rooted, Split(path)));
    if r == "" then "." else r
  }

  /** `path.Join`: leading empty elements are dropped, then the rest is joined and cleaned. */
  function PathJoin(elements: seq<string>): string {
    if elements == [] then ""
    else if elements[0] == "" then PathJoin(elements[1..])
    else CleanPath(Join(elements))
  }

  function TrimEach(parts: seq<string>): (r: seq<string>)
    ensures |r| == |parts| && forall i :: 0 <= i < |parts| ==> r[i] == Trim(IsSlash, parts[i])
  {
    seq(|parts|, i requires 0 <= i < |parts| => Trim(IsSlash, parts[i]))
  }

  /** `joinPath`, as far as the path of the URL goes; `base` is the path of the base URL. */
  function JoinPath(base: string, parts: seq<string>): string {
    PathJoin([base] + TrimEach(parts))
  }

  /** The two kinds of path that the key store uses. */
  datatype Kind = Data | Metadata

  function KindName(k: Kind): string {
    match k
    case Data => "data"
    case Metadata => "metadata"
  }

  /** `keyStoreDataPath` and `keyStoreMetadataPath`. */
  function StorePath(base: string, mount: string, kind: Kind, namespace: string, name: string): Result<string> {
    match PathParts(name)
    case Err(m) => Err(m)
    case Ok(parts) => Ok(JoinPath(base, ["v1", mount, KindName(kind), "owners", namespace] + parts))
  }

  /** Valid segments pass through cleaning as they are. */
  lemma {:induction false} CleanKeepsSegments(rooted: bool, head: seq<string>, segments: seq<string>)
    requires AllSegments(segments)
    ensures Clean(rooted, head + segments) == Clean(rooted, head) + segments
  {
    if segments == [] {
      assert head + segments == head;
    } else {
      var n := |segments| - 1;
      CleanKeepsSegments(rooted, head, segments[..n]);
      assert (head + segments)[..|head + segments| - 1] == head + segments[..n];
      assert IsSegment(segments[n]);
    }
  }

  /** `..` takes back a segment, is dropped at the root and kept before a relative path; `.` changes nothing. */
  lemma DotsAreResolved(rooted: bool, parts: seq<string>, segment: string)
    requires IsSegment(segment)
    ensures Clean(rooted, parts + [segment] + [".."]) == Clean(rooted, parts)
    ensures Clean(rooted, parts + ["."]) == Clean(rooted, parts)
    ensures Clean(rooted, []) == [] ==> Clean(rooted, [".."]) == if rooted then [] else [".."]
  {
    hide IsSegment;
    assert IsSegment(segment) ==> segment != ".." by {
      SegmentsHaveNames(segment);
    }
    CleanKeepsSegments(rooted, parts, [segment]);
    var more := parts + [segment];
    assert (more + [".."])[..|more|] == more;
    assert (parts + ["."])[..|parts|] == parts;
    assert [".."][..0] == [];
  }

  lemma SegmentsHaveNames(s: string)
    requires IsSegment(s)
    ensures s != "" && s != "." && s != ".."
  {
  }

  /** The elements, split at the slashes they contain. */
  function Flatten(elements: seq<string>): (parts: seq<string>) {
    if elements == [] then [] else Split(elements[0]) + Flatten(elements[1..])
  }

  lemma {:induction false} SplitOfElements(elements: seq<string>)
    requires elements != []
    ensures Split(Join(elements)) == Flatten(elements)
  {
    hide Split;
    if |elements| == 1 {
      assert Flatten(elements[1..]) == [];
    } else {
      SplitOfElements(elements[1..]);
      SplitOfConcat(elements[0], Join(elements[1..]));
    }
  }

  lemma {:induction false} FlattenOfSegments(segments: seq<string>)
    requires NoSlashes(segments)
    ensures Flatten(segments) == segments
  {
    hide Split, NoSlash;
    if segments != [] {
      SplitOfPart(segments[0]);
      FlattenOfSegments(segments[1..]);
      assert segments == [segments[0]] + segments[1..];
    }
  }

  lemma {:induction false} FlattenConcat(head: seq<string>, tail: seq<string>)
    ensures Flatten(head + tail) == Flatten(head) + Flatten(tail)
  {
    hide Split;
    if head == [] {
      assert head + tail == tail;
    } else {
      FlattenConcat(head[1..], tail);
      assert (head + tail)[1..] == head[1..] + tail;
    }
  }

  lemma SegmentHasNoSlash(s: string)
    requires IsSegment(s)
    ensures NoSlash(s)
  {
    assert forall i :: 0 <= i < |s| ==> IsSegmentChar(s[i]) && s[i] != '/';
  }

  lemma SegmentsHaveNoSlashes(segments: seq<string>)
    requires AllSegments(segments)
    ensures NoSlashes(segments)
  {
    hide IsSegment, NoSlash;
    forall i | 0 <= i < |segments| ensures NoSlash(segments[i]) {
      SegmentHasNoSlash(segments[i]);
    }
  }

  lemma SegmentIsPlain(s: string)
    requires IsSegment(s)
    ensures Trim(IsSlash, s) == s
  {
    hide Trim;
    assert s != "" && IsSegmentChar(s[0]) && IsSegmentChar(s[|s| - 1]);
    TrimOfTrimmed(IsSlash, s);
  }

  lemma FixedSegments(kind: Kind)
    ensures IsSegment(KindName(kind)) && IsSegment("owners") && IsSegment("v1")
  {
  }

  /** What every key-store path begins with, before the kind. */
  function HeadElements(base: string, mount: string): (elements: seq<string>)
    ensures elements != [] && elements[0] != ""
  {
    (if base == "" then [] else [base]) + ["v1", Trim(IsSlash, mount)]
  }

  predicate Rooted(base: string) {
    base != "" && base[0] == '/'
  }

  function Head(base: string, mount: string): (stack: seq<string>) {
    Clean(Rooted(base), Flatten(HeadElements(base, mount)))
  }

  /** The part of the path that tells owners and entries apart. */
  function Tail(kind: Kind, namespace: string, name: string): (parts: seq<string>) {
    [KindName(kind), "owners", namespace] + (if name == "" then [] else Split(name))
  }

  lemma TailIsSegments(kind: Kind, namespace: string, name: string)
    requires IsSegment(namespace) && (name == "" || IsName(name))
    ensures AllSegments(Tail(kind, namespace, name))
  {
    hide Split, IsSegment;
    FixedSegments(kind);
  }

  lemma TrimEachOfSegments(mount: string, tail: seq<string>)
    requires AllSegments(tail)
    ensures TrimEach(["v1", mount] + tail) == ["v1", Trim(IsSlash, mount)] + tail
  {
    hide Trim, IsSegment;
    FixedSegments(Data);
    SegmentIsPlain("v1");
    forall i | 0 <= i < |tail| ensures Trim(IsSlash, tail[i]) == tail[i] {
      assert IsSegment(tail[i]);
      SegmentIsPlain(tail[i]);
    }
  }

  /** The elements that are joined, and their first character. */
  lemma JoinedPath(base: string, mount: string, tail: seq<string>)
    requires AllSegments(tail)
    ensures JoinPath(base, ["v1", mount] + tail) == CleanPath(Join(HeadElements(base, mount) + tail))
    ensures var path := Join(HeadElements(base, mount) + tail); path != "" && (path[0] == '/' <==> Rooted(base))
  {
    hide Trim, CleanPath, IsSegment;
    TrimEachOfSegments(mount, tail);
    var all := [base] + TrimEach(["v1", mount] + tail);
    var elements := HeadElements(base, mount) + tail;
    if base == "" {
      assert all[1..] == elements;
      assert elements[0] == "v1";
    } else {
      assert all == elements;
      assert elements[0] == base;
    }
    assert PathJoin(elements) == CleanPath(Join(elements));
    assert Join(elements)[0] == elements[0][0];
  }

  lemma {:induction false} JoinIsNotEmpty(parts: seq<string>)
    requires |parts| >= 2
    ensures Join(parts) != ""
  {
    assert |Join(parts)| >= 1;
  }

  /** Cleaning changes at most the head: the path is the cleaned head, then owner and segments as they are. */
  lemma PathIsHeadThenTail(base: string, mount: string, kind: Kind, namespace: string, name: string)
    requires IsSegment(namespace) && (name == "" || IsName(name))
    ensures StorePath(base, mount, kind, namespace, name)
         == Ok(Render(Rooted(base), Head(base, mount) + Tail(kind, namespace, name)))
  {
    hide Trim, Split, IsSegment, JoinPath, HeadElements, Join, Flatten, Clean;
    var tail := Tail(kind, namespace, name);
    TailIsSegments(kind, namespace, name);
    var parts := if name == "" then [] else Split(name);
    if name == "" {
      EmptyHasNoParts();
    } else {
      NameRoundTrip(name);
    }
    assert ["v1", mount, KindName(kind), "owners", namespace] + parts == ["v1", mount] + tail;
    JoinedPath(base, mount, tail);
    var elements := HeadElements(base, mount) + tail;
    SplitOfElements(elements);
    FlattenConcat(HeadElements(base, mount), tail);
    SegmentsHaveNoSlashes(tail);
    FlattenOfSegments(tail);
    CleanKeepsSegments(Rooted(base), Flatten(HeadElements(base, mount)), tail);
    JoinIsNotEmpty(Head(base, mount) + tail);
  }

  lemma EmptyHasNoParts()
    ensures PathParts("") == Ok([])
  {
  }

  // ---------- different entries have different paths ----------

  lemma {:induction false} CleanHasNoSlashes(rooted: bool, parts: seq<string>)
    requires NoSlashes(parts)
    ensures NoSlashes(Clean(rooted, parts))
  {
    if parts != [] {
      CleanHasNoSlashes(rooted, parts[..|parts| - 1]);
    }
  }

  lemma {:induction false} FlattenHasNoSlashes(elements: seq<string>)
    ensures NoSlashes(Flatten(elements))
  {
    hide Split;
    if elements != [] {
      SplitHasNoSlashes(elements[0]);
      FlattenHasNoSlashes(elements[1..]);
    }
  }

  lemma PathPartsHaveNoSlashes(base: string, mount: string, kind: Kind, namespace: string, name: string)
    requires IsSegment(namespace) && (name == "" || IsName(name))
    ensures NoSlashes(Head(base, mount) + Tail(kind, namespace, name))
  {
    hide IsSegment, Clean, Flatten, NoSlash, Tail, HeadElements, IsName;
    FlattenHasNoSlashes(HeadElements(base, mount));
    CleanHasNoSlashes(Rooted(base), Flatten(HeadElements(base, mount)));
    TailIsSegments(kind, namespace, name);
    SegmentsHaveNoSlashes(Tail(kind, namespace, name));
  }

  lemma RenderIsInjective(rooted: bool, s: seq<string>, t: seq<string>)
    requires s != [] && t != [] && NoSlashes(s) && NoSlashes(t) && Render(rooted, s) == Render(rooted, t)
    ensures s == t
  {
    hide Join, Split;
    var skip := if rooted then 1 else 0;
    assert Render(rooted, s)[skip..] == Join(s) && Render(rooted, t)[skip..] == Join(t);
    SplitOfJoin(s);
    SplitOfJoin(t);
  }

  /** Two paths are equal only for the same kind, the same owner and the same entry. */
  lemma PathsAreDistinct(base: string, mount: string, kind: Kind, namespace: string, name: string,
                         kind': Kind, namespace': string, name': string)
    requires IsSegment(namespace) && (name == "" || IsName(name))
    requires IsSegment(namespace') && (name' == "" || IsName(name'))
    requires StorePath(base, mount, kind, namespace, name) == StorePath(base, mount, kind', namespace', name')
    ensures kind == kind' && namespace == namespace' && name == name'
  {
    hide StorePath, Render, Head, Split, IsSegment, Join;
    var h, t, t' := Head(base, mount), Tail(kind, namespace, name), Tail(kind', namespace', name');
    PathIsHeadThenTail(base, mount, kind, namespace, name);
    PathIsHeadThenTail(base, mount, kind', namespace', name');
    PathPartsHaveNoSlashes(base, mount, kind, namespace, name);
    PathPartsHaveNoSlashes(base, mount, kind', namespace', name');
    RenderIsInjective(Rooted(base), h + t, h + t');
    assert t == (h + t)[|h|..] && t' == (h + t')[|h|..];
    assert t[0] == t'[0] && t[2] == t'[2] && t[3..] == t'[3..];
    JoinOfSplit(name);
    JoinOfSplit(name');
  }

  // ---------- owners ----------

  /** The namespace of a tenant is a valid segment. */
  lemma NamespaceIsSegment(digest: Bytes)
    requires |digest| == 32
    ensures IsSegment(TenantNamespace(digest))
  {
    hide EncodeHex;
    HexIsPlain(digest[..16]);
    var namespace := TenantNamespace(digest);
    assert forall i :: 7 <= i < 39 ==> namespace[i] == EncodeHex(digest[..16])[i - 7];
    assert All(IsSegmentChar, "tenant_");
  }

  lemma {:induction false} HexIsPlain(b: Bytes)
    ensures All(IsSegmentChar, EncodeHex(b))
  {
    if b != [] {
      HexIsPlain(b[1..]);
    }
  }

  // ---------- names and paths in full ----------

  /** A segment, spelled out: not empty, `.` or `..`, and only letters, digits, dots, underscores and dashes. */
  predicate IsPlainSegment(s: string) {
    s != "" && s != "." && s != ".." && forall i :: 0 <= i < |s| ==> IsPlain(s[i]) || s[i] == '_'
  }

  lemma SegmentsAre(s: string)
    ensures IsSegment(s) <==> IsPlainSegment(s)
  {
    assert forall i :: 0 <= i < |s| ==> (IsSegmentChar(s[i]) <==> IsPlain(s[i]) || s[i] == '_');
  }

  ghost predicate AllPlainSegments(parts: seq<string>) {
    forall i :: 0 <= i < |parts| ==> IsPlainSegment(parts[i])
  }

  /** Exactly which names and prefixes are accepted, and as what. */
  lemma NameExactly(value: string)
    ensures var t := TrimSpace(value);
            && (NormalizeName(value).Ok? <==> 1 <= |t| <= 256 && AllPlainSegments(Split(t)))
            && (NormalizeName(value).Ok? ==> NormalizeName(value) == Ok(t))
    ensures var t := Trim(IsSlash, TrimSpace(value));
            && (NormalizePrefix(value).Ok? <==> t == "" || (|t| <= 256 && AllPlainSegments(Split(t))))
            && (NormalizePrefix(value).Ok? ==> NormalizePrefix(value) == Ok(t))
  {
    hide TrimSpace, Trim, Split, IsSegment, IsPlainSegment, NormalizeName, NormalizePrefix;
    NameAccepted(value);
    PrefixAccepted(value);
    PlainSegments(Split(TrimSpace(value)));
    PlainSegments(Split(Trim(IsSlash, TrimSpace(value))));
  }

  lemma PlainSegments(parts: seq<string>)
    ensures AllSegments(parts) <==> AllPlainSegments(parts)
  {
    hide IsSegment, IsPlainSegment;
    forall i | 0 <= i < |parts| ensures IsSegment(parts[i]) <==> IsPlainSegment(parts[i]) {
      SegmentsAre(parts[i]);
    }
  }

  lemma {:induction false} JoinOfConcat(a: seq<string>, b: seq<string>)
    requires a != [] && b != []
    ensures Join(a + b) == Join(a) + "/" + Join(b)
  {
    if |a| == 1 {
      assert (a + b)[1..] == b;
    } else {
      JoinOfConcat(a[1..], b);
      assert (a + b)[1..] == a[1..] + b;
    }
  }

  lemma SimpleHead(mount: string)
    requires IsSegment(mount)
    ensures Head("", mount) == ["v1", mount] && !Rooted("")
  {
    hide Trim, Split, IsSegment, Clean;
    SegmentIsPlain(mount);
    SegmentHasNoSlash(mount);
    var elements := ["v1", mount];
    assert HeadElements("", mount) == elements;
    FixedSegments(Data);
    SegmentsHaveNoSlashes(elements);
    FlattenOfSegments(elements);
    CleanKeepsSegments(false, [], elements);
    assert [] + elements == elements;
    assert Clean(false, []) == [] by { NothingToClean(); }
  }

  lemma NothingToClean()
    ensures Clean(false, []) == []
  {
  }

  /** For a plain mount, the paths as they are written in the backend's documentation. */
  lemma PathsInFull(mount: string, namespace: string, name: string)
    requires IsSegment(mount) && IsSegment(namespace) && IsName(name)
    ensures StorePath("", mount, Data, namespace, name)
         == Ok("v1/" + mount + "/data/owners/" + namespace + "/" + name)
    ensures StorePath("", mount, Metadata, namespace, name)
         == Ok("v1/" + mount + "/metadata/owners/" + namespace + "/" + name)
    ensures StorePath("", mount, Metadata, namespace, "")
         == Ok("v1/" + mount + "/metadata/owners/" + namespace)
  {
    hide StorePath, Head, Split, IsSegment, IsName, Join, Clean;
    SimpleHead(mount);
    PathInFull(mount, Data, namespace, name);
    PathInFull(mount, Metadata, namespace, name);
    PathIsHeadThenTail("", mount, Metadata, namespace, "");
    FiveParts(mount, "metadata", namespace);
    OneLiteral("v1/" + mount, "data");
    OneLiteral("v1/" + mount, "metadata");
    var five := ["v1", mount, "metadata", "owners", namespace];
    assert Head("", mount) + Tail(Metadata, namespace, "") == five;
    assert Render(false, five) == Join(five);
  }

  lemma OneLiteral(head: string, kind: string)
    requires kind == "data" || kind == "metadata"
    ensures head + "/" + kind + "/owners/" == head + (if kind == "data" then "/data/owners/" else "/metadata/owners/")
  {
  }

  lemma PathInFull(mount: string, kind: Kind, namespace: string, name: string)
    requires IsSegment(mount) && IsSegment(namespace) && IsName(name)
    ensures StorePath("", mount, kind, namespace, name)
         == Ok("v1/" + mount + "/" + KindName(kind) + "/owners/" + namespace + "/" + name)
  {
    hide StorePath, Head, Split, IsSegment, Join, KindName, AllSegments;
    var five := ["v1", mount, KindName(kind), "owners", namespace];
    SimpleHead(mount);
    PathIsHeadThenTail("", mount, kind, namespace, name);
    assert Head("", mount) + Tail(kind, namespace, name) == five + Split(name);
    JoinOfConcat(five, Split(name));
    JoinOfSplit(name);
    FiveParts(mount, KindName(kind), namespace);
    assert Render(false, five + Split(name)) == Join(five) + "/" + name;
  }

  lemma FiveParts(mount: string, kind: string, namespace: string)
    ensures Join(["v1", mount, kind, "owners", namespace]) == "v1/" + mount + "/" + kind + "/owners/" + namespace
  {
    var five := ["v1", mount, kind, "owners", namespace];
    assert five[1..] == [mount, kind, "owners", namespace];
    assert five[1..][1..] == [kind, "owners", namespace];
    assert five[1..][1..][1..] == ["owners", namespace];
    assert five[1..][1..][1..][1..] == [namespace];
    assert Join(["owners", namespace]) == "owners/" + namespace;
    assert Join([kind, "owners", namespace]) == kind + "/owners/" + namespace;
    assert Join([mount, kind, "owners", namespace]) == mount + "/" + kind + "/owners/" + namespace;
  }
}
