/** Listing the key store: which backend keys are shown, under which names, in which order. */
module KeyStoreListing {
  import opened Outcomes
  import opened Text
  import opened KeyNames
  import opened KeyStorePaths
  import opened Words

  // ---------- one key ----------

  /** `joinKeyStoreName`. */
  function JoinName(prefix: string, name: string): string {
    var p, n := Trim(IsSlash, prefix), Trim(IsSlash, name);
    if p == "" then n else if n == "" then p else p + "/" + n
  }

  predicate IsFolder(key: string) {
    key != "" && key[|key| - 1] == '/'
  }

  function SegmentOf(key: string): string {
    if IsFolder(key) then key[..|key| - 1] else key
  }

  /** What a raw backend key under `prefix` is listed as; unsafe and over-long keys are left out. */
  function Listed(prefix: string, key: string): Option<string> {
    var segment := SegmentOf(key);
    if ValidateSegment(segment).Err? then None
    else
      var name := JoinName(prefix, segment);
      if ByteLen(name) > MAX_NAME then None
      else Some(if IsFolder(key) then name + "/" else name)
  }

  /** The segments of a prefix. */
  function PrefixParts(prefix: string): seq<string> {
    if prefix == "" then [] else Split(prefix)
  }

  /** The name of an entry has the segments of its prefix and then its own. */
  lemma JoinedName(prefix: string, segment: string)
    requires (prefix == "" || IsName(prefix)) && IsSegment(segment)
    ensures var name := JoinName(prefix, segment);
            name != "" && Split(name) == PrefixParts(prefix) + [segment] && AllSegments(Split(name))
  {
    hide Trim, Split, IsSegment;
    SegmentIsPlain(segment);
    SegmentHasNoSlash(segment);
    SplitOfPart(segment);
    assert segment != "" by {
      SegmentChars([segment], 0);
    }
    if prefix == "" {
      EmptyTrim();
      assert PrefixParts(prefix) + [segment] == [segment];
    } else {
      SegmentsArePlain(prefix);
      SplitOfConcat(prefix, segment);
    }
  }

  lemma EmptyTrim()
    ensures Trim(IsSlash, "") == ""
  {
  }

  /**
   An entry that is listed is accepted by both validators unchanged, and its data path is the path of the
   listed prefix with the raw key appended: it addresses the entry that was listed.
   */
  lemma ListedEntryIsReachable(base: string, mount: string, digest: Bytes, value: string, key: string)
    requires |digest| == 32 && NormalizePrefix(value).Ok? && !IsFolder(key)
    requires Listed(NormalizePrefix(value).value, key).Some?
    ensures var prefix := NormalizePrefix(value).value;
            var name := Listed(prefix, key).value;
            && NormalizeName(name) == Ok(name) && GatewayName(name).Ok?
            && forall kind :: StorePath(base, mount, kind, TenantNamespace(digest), name)
                 == Ok(Render(Rooted(base), Head(base, mount) + Tail(kind, TenantNamespace(digest), prefix) + [key]))
  {
    hide IsSegment, Split, Trim, TrimSpace, JoinName, ByteLen, Render, Head, StorePath, NormalizePrefix,
      TenantNamespace, GatewayName, NormalizeName;
    var prefix := NormalizePrefix(value).value;
    PrefixAccepted(value);
    IsSegmentIsValid(key);
    JoinedName(prefix, key);
    var name := JoinName(prefix, key);
    SegmentsArePlain(name);
    NameAccepted(name);
    NamesAgree(name);
    NamespaceIsSegment(digest);
    forall kind ensures StorePath(base, mount, kind, TenantNamespace(digest), name)
      == Ok(Render(Rooted(base), Head(base, mount) + Tail(kind, TenantNamespace(digest), prefix) + [key]))
    {
      PathIsHeadThenTail(base, mount, kind, TenantNamespace(digest), name);
      assert Head(base, mount) + Tail(kind, TenantNamespace(digest), name)
          == Head(base, mount) + Tail(kind, TenantNamespace(digest), prefix) + [key];
    }
  }

  lemma IsSegmentIsValid(s: string)
    ensures IsSegment(s) == ValidateSegment(s).Ok?
  {
  }

  /** A folder that is listed is a prefix that both validators accept, one segment below the listed prefix. */
  lemma ListedFolderIsPrefix(value: string, key: string)
    requires NormalizePrefix(value).Ok? && IsFolder(key) && Listed(NormalizePrefix(value).value, key).Some?
    ensures var prefix := NormalizePrefix(value).value;
            var name := Listed(prefix, key).value;
            && NormalizePrefix(name).Ok? && GatewayPrefix(name).Ok? && name == NormalizePrefix(name).value + "/"
            && PrefixParts(NormalizePrefix(name).value) == PrefixParts(prefix) + [SegmentOf(key)]
  {
    hide IsSegment, Split, Trim, TrimSpace, JoinName, ByteLen, NormalizePrefix, GatewayPrefix, NormalizeName,
      GatewayName;
    var prefix, segment := NormalizePrefix(value).value, SegmentOf(key);
    PrefixAccepted(value);
    IsSegmentIsValid(segment);
    JoinedName(prefix, segment);
    var name := JoinName(prefix, segment);
    SegmentsArePlain(name);
    FolderIsTrimmed(name);
    PrefixAccepted(name + "/");
    NamesAgree(name + "/");
  }

  lemma FolderIsTrimmed(name: string)
    requires name != "" && AllSegments(Split(name))
    ensures Trim(IsSlash, TrimSpace(name + "/")) == name
  {
    hide IsSpace, Split, AllSegments;
    NameCharsArePlain(name);
    SegmentsArePlain(name);
    var folder := name + "/";
    assert folder[0] == name[0];
    SlashIsNoSpace();
    TrimOfTrimmed(IsSpace, folder);
    assert folder[..|folder| - 1] == name;
    assert TrimLeft(IsSlash, folder) == folder;
    assert TrimRight(IsSlash, folder) == TrimRight(IsSlash, name);
  }

  lemma SlashIsNoSpace()
    ensures !IsSpace('/')
  {
  }

  /** Different keys are listed under different names. */
  lemma ListedIsInjective(prefix: string, key: string, key': string)
    requires (prefix == "" || IsName(prefix)) && Listed(prefix, key).Some?
        && Listed(prefix, key) == Listed(prefix, key')
    ensures key == key'
  {
    hide IsSegment, Split, JoinName, ByteLen, IsName, PrefixParts;
    var segment, segment' := SegmentOf(key), SegmentOf(key');
    IsSegmentIsValid(segment);
    IsSegmentIsValid(segment');
    JoinedName(prefix, segment);
    JoinedName(prefix, segment');
    var name, name' := JoinName(prefix, segment), JoinName(prefix, segment');
    NoSlashAtEdge(name);
    NoSlashAtEdge(name');
    assert IsFolder(key) == IsFolder(key');
    assert name == name' by {
      assert (name + "/")[..|name|] == name && (name' + "/")[..|name'|] == name';
    }
    var parts := PrefixParts(prefix);
    assert (parts + [segment])[|parts|] == (parts + [segment'])[|parts|];
  }

  /** Exactly the keys with a valid segment that stay within 256 characters are listed, folders with a slash. */
  lemma ListedExactly(prefix: string, key: string)
    requires prefix == "" || IsName(prefix)
    ensures var segment := if key != "" && key[|key| - 1] == '/' then key[..|key| - 1] else key;
            var name := if prefix == "" then segment else prefix + "/" + segment;
            && (Listed(prefix, key).Some? <==> IsPlainSegment(segment) && |name| <= 256)
            && (Listed(prefix, key).Some? ==> Listed(prefix, key) == Some(name + if IsFolder(key) then "/" else ""))
  {
    hide IsPlainSegment, IsSegment, ByteLen, Split, Trim;
    var segment := SegmentOf(key);
    SegmentsAre(segment);
    IsSegmentIsValid(segment);
    if IsSegment(segment) {
      assert JoinName(prefix, segment) + "" == JoinName(prefix, segment);
      JoinedName(prefix, segment);
      SegmentsArePlain(JoinName(prefix, segment));
      PlainJoin(prefix, segment);
    }
  }

  lemma PlainJoin(prefix: string, segment: string)
    requires (prefix == "" || IsName(prefix)) && IsSegment(segment)
    ensures JoinName(prefix, segment) == if prefix == "" then segment else prefix + "/" + segment
  {
    hide Trim, IsSegment, Split;
    SegmentIsPlain(segment);
    EmptyTrim();
    assert segment != "" by {
      SegmentChars([segment], 0);
    }
    if prefix != "" {
      SegmentsArePlain(prefix);
    }
  }

  // ---------- the order of strings ----------

  /** Both are equal up to `k`, and there `a` has the smaller character. */
  predicate SmallerAt(a: string, b: string, k: nat) {
    k < |a| && k < |b| && a[..k] == b[..k] && a[k] < b[k]
  }

  /** The order is the lexicographic one: a prefix first, otherwise the first difference decides. */
  lemma {:induction false} AtMostIsLexicographic(a: string, b: string)
    ensures AtMost(a, b) <==> a <= b || exists k: nat :: SmallerAt(a, b, k)
  {
    if a != "" && b != "" {
      if a[0] < b[0] {
        assert SmallerAt(a, b, 0);
      } else if a[0] == b[0] {
        AtMostIsLexicographic(a[1..], b[1..]);
        SmallerAfterFirst(a, b);
      } else {
        NothingSmaller(a, b);
      }
    }
  }

  lemma NothingSmaller(a: string, b: string)
    requires a != "" && b != "" && a[0] > b[0]
    ensures !(a <= b) && !exists k: nat :: SmallerAt(a, b, k)
  {
    forall k: nat ensures !SmallerAt(a, b, k) {
      if k > 0 && k < |a| && k < |b| {
        assert a[..k][0] == a[0] && b[..k][0] == b[0];
      }
    }
  }

  lemma SmallerAfterFirst(a: string, b: string)
    requires a != "" && b != "" && a[0] == b[0]
    ensures a <= b <==> a[1..] <= b[1..]
    ensures (exists k: nat :: SmallerAt(a, b, k)) <==> (exists k: nat :: SmallerAt(a[1..], b[1..], k))
  {
    forall k: nat ensures SmallerAt(a, b, k + 1) <==> SmallerAt(a[1..], b[1..], k) {
      if k + 1 < |a| && k + 1 < |b| {
        assert a[..k + 1] == [a[0]] + a[1..][..k] && b[..k + 1] == [b[0]] + b[1..][..k];
        assert a[..k + 1][1..] == a[1..][..k] && b[..k + 1][1..] == b[1..][..k];
      }
    }
    if k: nat :| SmallerAt(a, b, k) {
      assert k > 0;
      assert SmallerAt(a[1..], b[1..], k - 1);
    }
    if k: nat :| SmallerAt(a[1..], b[1..], k) {
      assert SmallerAt(a, b, k + 1);
    }
    assert a == [a[0]] + a[1..] && b == [b[0]] + b[1..];
  }

  /** The order of `sort.Strings`. */
  predicate AtMost(a: string, b: string) {
    a == "" || (b != "" && (a[0] < b[0] || (a[0] == b[0] && AtMost(a[1..], b[1..]))))
  }

  lemma {:induction false} AtMostIsTotal(a: string, b: string)
    ensures AtMost(a, b) || AtMost(b, a)
  {
    if a != "" && b != "" && a[0] == b[0] {
      AtMostIsTotal(a[1..], b[1..]);
    }
  }

  lemma {:induction false} AtMostIsTransitive(a: string, b: string, c: string)
    requires AtMost(a, b) && AtMost(b, c)
    ensures AtMost(a, c)
  {
    if a != "" && a[0] == b[0] == c[0] {
      AtMostIsTransitive(a[1..], b[1..], c[1..]);
    }
  }

  ghost predicate Sorted(names: seq<string>) {
    forall i, j :: 0 <= i < j < |names| ==> AtMost(names[i], names[j])
  }

  function Insert(names: seq<string>, name: string): (r: seq<string>) {
    if names == [] || AtMost(name, names[0]) then [name] + names else [names[0]] + Insert(names[1..], name)
  }

  lemma {:induction false} InsertAdds(names: seq<string>, name: string)
    ensures multiset(Insert(names, name)) == multiset(names) + multiset{name}
  {
    hide AtMost;
    if names != [] && !AtMost(name, names[0]) {
      InsertAdds(names[1..], name);
      assert names == [names[0]] + names[1..];
    }
  }

  lemma {:induction false} InsertKeepsOrder(names: seq<string>, name: string)
    requires Sorted(names)
    ensures Sorted(Insert(names, name))
  {
    hide AtMost;
    if names == [] || AtMost(name, names[0]) {
      forall i | 0 <= i < |names| ensures AtMost(name, names[i]) {
        if i > 0 {
          AtMostIsTransitive(name, names[0], names[i]);
        }
      }
    } else {
      var rest := Insert(names[1..], name);
      InsertKeepsOrder(names[1..], name);
      InsertAdds(names[1..], name);
      AtMostIsTotal(name, names[0]);
      forall i | 0 <= i < |rest| ensures AtMost(names[0], rest[i]) {
        assert rest[i] in multiset(rest);
        assert rest[i] == name || rest[i] in names[1..];
      }
    }
  }

  // ---------- the whole listing ----------

  function AllListed(prefix: string, keys: seq<string>): (names: seq<string>) {
    if keys == [] then []
    else
      var name := Listed(prefix, keys[|keys| - 1]);
      AllListed(prefix, keys[..|keys| - 1]) + (if name.Some? then [name.value] else [])
  }

  lemma {:induction false} ListedNamesComeFromKeys(prefix: string, keys: seq<string>, name: string)
    ensures name in AllListed(prefix, keys) <==> exists i :: 0 <= i < |keys| && Listed(prefix, keys[i]) == Some(name)
  {
    hide Listed;
    if keys != [] {
      var n := |keys| - 1;
      ListedNamesComeFromKeys(prefix, keys[..n], name);
      assert forall i :: 0 <= i < n ==> keys[..n][i] == keys[i];
    }
  }

  /** `sort.Strings`. */
  method SortNames(names: seq<string>) returns (sorted: seq<string>)
    ensures Sorted(sorted) && multiset(sorted) == multiset(names)
  {
    hide AtMost, Insert;
    sorted := [];
    for i := 0 to |names|
      invariant Sorted(sorted) && multiset(sorted) == multiset(names[..i])
    {
      assert names[..i + 1] == names[..i] + [names[i]];
      InsertKeepsOrder(sorted, names[i]);
      InsertAdds(sorted, names[i]);
      sorted := Insert(sorted, names[i]);
    }
    assert names[..|names|] == names;
  }

  /** `listKeyStoreSecrets`, for the keys that the backend lists under `prefix`. */
  method ListSecrets(prefix: string, keys: seq<string>) returns (names: seq<string>)
    ensures Sorted(names) && multiset(names) == multiset(AllListed(prefix, keys))
  {
    hide JoinName, ByteLen, ValidateSegment;
    var found: seq<string> := [];
    for i := 0 to |keys|
      invariant found == AllListed(prefix, keys[..i])
    {
      assert keys[..i + 1][..i] == keys[..i];
      var isFolder := IsFolder(keys[i]);
      var segment := SegmentOf(keys[i]);
      if ValidateSegment(segment).Err? {
        continue;
      }
      var name := JoinName(prefix, segment);
      if ByteLen(name) > MAX_NAME {
        continue;
      }
      if isFolder {
        found := found + [name + "/"];
        continue;
      }
      found := found + [name];
    }
    assert keys[..|keys|] == keys;
    names := SortNames(found);
  }
}
