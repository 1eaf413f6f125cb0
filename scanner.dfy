/**
 * The scan of the cache directory in `process` (infoset/cache/cache.py): the
 * file names that match `^\d+_[0-9a-f]+.json` and are at least 15 seconds
 * old are grouped by the uid in their name, one `(timestamp, path)` batch
 * per uid, and every batch is handed to a worker. The workers are modelled
 * as one `FillDB` draining the batches one after the other.
 */
module Scanner {
  import opened Wrappers
  import opened Strings
  import opened Identifiers
  import opened Sorting
  import opened BatchLoop

  /** The directory listing: each file's name and its age in seconds. */
  type Listing = seq<(string, real)>

  /** Files younger than this may still be written to and are skipped. */
  const MinAge: real := 15.0

  // ---------------------------------------------------------------------
  // regex.match(r'^\d+_[0-9a-f]+.json', filename)
  // ---------------------------------------------------------------------

  /** The length of the run of decimal digits `s` starts with. */
  function DigitSpan(s: string): (n: nat)
    ensures n <= |s|
    ensures AllDigits(s[..n])
    ensures n < |s| ==> !IsDigit(s[n])
    decreases |s|
  {
    if |s| == 0 || !IsDigit(s[0]) then 0
    else
      var n := 1 + DigitSpan(s[1..]);
      assert s[..n] == [s[0]] + s[1..][..n - 1];
      n
  }

  /** The length of the run of lower-case hex digits `s` starts with. */
  function HexSpan(s: string): (n: nat)
    ensures n <= |s|
    ensures AllHex(s[..n])
    ensures n < |s| ==> !IsHex(s[n])
    decreases |s|
  {
    if |s| == 0 || !IsHex(s[0]) then 0
    else
      var n := 1 + HexSpan(s[1..]);
      assert s[..n] == [s[0]] + s[1..][..n - 1];
      n
  }

  /** A prefix of `n` digits followed by a non-digit is the digit run. */
  lemma DigitSpanIs(s: string, n: nat)
    requires n <= |s| && AllDigits(s[..n]) && (n < |s| ==> !IsDigit(s[n]))
    ensures DigitSpan(s) == n
  {
    var d := DigitSpan(s);
    assert forall i :: 0 <= i < n ==> IsDigit(s[i]) by {
      forall i | 0 <= i < n ensures IsDigit(s[i]) {
        assert s[..n][i] == s[i];
      }
    }
    assert forall i :: 0 <= i < d ==> IsDigit(s[i]) by {
      forall i | 0 <= i < d ensures IsDigit(s[i]) {
        assert s[..d][i] == s[i];
      }
    }
  }

  /** A prefix of `n` hex digits followed by a non-hex character is the hex run. */
  lemma HexSpanIs(s: string, n: nat)
    requires n <= |s| && AllHex(s[..n]) && (n < |s| ==> !IsHex(s[n]))
    ensures HexSpan(s) == n
  {
    var h := HexSpan(s);
    assert forall i :: 0 <= i < n ==> IsHex(s[i]) by {
      forall i | 0 <= i < n ensures IsHex(s[i]) {
        assert s[..n][i] == s[i];
      }
    }
    assert forall i :: 0 <= i < h ==> IsHex(s[i]) by {
      forall i | 0 <= i < h ensures IsHex(s[i]) {
        assert s[..h][i] == s[i];
      }
    }
  }

  /**
   * `[0-9a-f]+.json` matches at the start of `t` with the `+` taking `j` or
   * more characters; the `.` is unescaped and takes any character but a
   * newline, and there is no end anchor.
   */
  predicate HexTail(t: string, j: nat)
    decreases |t| - j
  {
    && j <= HexSpan(t)
    && j + 5 <= |t|
    && ((t[j] != '\n' && t[j + 1..j + 5] == "json") || HexTail(t, j + 1))
  }

  /** `bool(regex.match(filename))`. */
  predicate Matches(s: string) {
    var d := DigitSpan(s);
    1 <= d < |s| && s[d] == '_' && HexTail(s[d + 1..], 1)
  }

  /**
   * What the pattern describes: at least one digit, `_`, at least one
   * lower-case hex digit, one character that is not a newline, then `json`,
   * followed by anything.
   */
  predicate RegexMatch(s: string) {
    exists i, j ::
      && 1 <= i < j - 1
      && j + 5 <= |s|
      && AllDigits(s[..i])
      && s[i] == '_'
      && AllHex(s[i + 1..j])
      && s[j] != '\n'
      && s[j + 1..j + 5] == "json"
  }

  lemma {:induction false} HexTailWitness(t: string, j: nat) returns (k: nat)
    requires HexTail(t, j)
    ensures j <= k <= HexSpan(t) && k + 5 <= |t|
    ensures t[k] != '\n' && t[k + 1..k + 5] == "json"
    decreases |t| - j
  {
    if t[j] != '\n' && t[j + 1..j + 5] == "json" {
      k := j;
    } else {
      k := HexTailWitness(t, j + 1);
    }
  }

  lemma {:induction false} HexTailFrom(t: string, j: nat, k: nat)
    requires j <= k <= HexSpan(t) && k + 5 <= |t|
    requires t[k] != '\n' && t[k + 1..k + 5] == "json"
    ensures HexTail(t, j)
    decreases k - j
  {
    if j < k {
      HexTailFrom(t, j + 1, k);
    }
  }

  lemma MatchesRegex(s: string)
    requires Matches(s)
    ensures RegexMatch(s)
  {
    var d := DigitSpan(s);
    var t := s[d + 1..];
    var k := HexTailWitness(t, 1);
    var j := d + 1 + k;
    assert AllHex(t[..k]) by {
      forall i | 0 <= i < k ensures IsHex(t[..k][i]) {
        assert t[..k][i] == t[..HexSpan(t)][i];
      }
    }
    assert s[d + 1..j] == t[..k];
    assert s[j + 1..j + 5] == t[k + 1..k + 5];
    assert s[j] == t[k];
  }

  /** A run of `k` hex digits followed by any character but a newline and `json`. */
  lemma HexRunTail(t: string, k: nat)
    requires 1 <= k && k + 5 <= |t| && AllHex(t[..k])
    requires t[k] != '\n' && t[k + 1..k + 5] == "json"
    ensures HexTail(t, 1)
  {
    assert forall m :: 0 <= m < k ==> IsHex(t[m]) by {
      forall m | 0 <= m < k ensures IsHex(t[m]) {
        assert t[..k][m] == t[m];
      }
    }
    HexTailFrom(t, 1, k);
  }

  /** The pattern found at the split points `i` (the `_`) and `j` (the unescaped `.`). */
  lemma MatchAt(s: string, i: int, j: int)
    requires 1 <= i < j - 1 && j + 5 <= |s|
    requires AllDigits(s[..i]) && s[i] == '_' && AllHex(s[i + 1..j])
    requires s[j] != '\n' && s[j + 1..j + 5] == "json"
    ensures Matches(s)
  {
    DigitSpanIs(s, i);
    var t := s[i + 1..];
    var k := j - i - 1;
    assert t[..k] == s[i + 1..j];
    assert t[k] == s[j];
    assert t[k + 1..k + 5] == s[j + 1..j + 5];
    HexRunTail(t, k);
  }

  lemma RegexMatches(s: string)
    requires RegexMatch(s)
    ensures Matches(s)
  {
    var i, j :|
      && 1 <= i < j - 1
      && j + 5 <= |s|
      && AllDigits(s[..i])
      && s[i] == '_'
      && AllHex(s[i + 1..j])
      && s[j] != '\n'
      && s[j + 1..j + 5] == "json";
    MatchAt(s, i, j);
  }

  /** The matcher accepts exactly the names the pattern describes. */
  lemma MatchesIff(s: string)
    ensures Matches(s) <==> RegexMatch(s)
  {
    if Matches(s) {
      MatchesRegex(s);
    }
    if RegexMatch(s) {
      RegexMatches(s);
    }
  }

  // ---------------------------------------------------------------------
  // The name: `(name, _) = filename.split('.')`, `(tstamp, uid) = name.split('_')`.
  // ---------------------------------------------------------------------

  /**
   * The timestamp and uid in a file name; None where one of the two tuple
   * unpackings or `int(tstamp)` raises.
   */
  function Parse(filename: string): Option<(int, string)> {
    var parts := Split(filename, '.');
    if |parts| != 2 then None
    else
      var halves := Split(parts[0], '_');
      if |halves| != 2 then None
      else
        match ParseInt(halves[0])
        case None => None
        case Some(ts) => Some((ts, halves[1]))
  }

  /** A name `<tstamp>_<uid>.<ext>` with no further `.` or `_` is taken apart into its timestamp and uid. */
  lemma ParseName(tstamp: string, uid: string, ext: string)
    requires Free(tstamp, '.') && Free(uid, '.') && Free(ext, '.')
    requires Free(tstamp, '_') && Free(uid, '_')
    ensures Parse(tstamp + "_" + uid + "." + ext) ==
      if ParseInt(tstamp).Some? then Some((ParseInt(tstamp).value, uid)) else None
  {
    var name := tstamp + "_" + uid;
    assert Free(name, '.');
    SplitPrefix(name, ext, '.');
    SplitFree(ext, '.');
    assert tstamp + "_" + uid + "." + ext == name + ['.'] + ext;
    SplitPrefix(tstamp, uid, '_');
    SplitFree(uid, '_');
    assert name == tstamp + ['_'] + uid;
  }

  /** Every name the parse accepts has that form. */
  lemma ParseShape(filename: string, ts: int, uid: string) returns (tstamp: string, ext: string)
    requires Parse(filename) == Some((ts, uid))
    ensures filename == tstamp + "_" + uid + "." + ext
    ensures Free(tstamp, '.') && Free(uid, '.') && Free(ext, '.')
    ensures Free(tstamp, '_') && Free(uid, '_')
    ensures ParseInt(tstamp) == Some(ts)
  {
    var parts := Split(filename, '.');
    var halves := Split(parts[0], '_');
    tstamp, ext := halves[0], parts[1];
    JoinSplit(filename, '.');
    JoinSplit(parts[0], '_');
    SplitPartsFree(filename, '.');
    SplitPartsFree(parts[0], '_');
    assert Join(parts, '.') == parts[0] + ['.'] + parts[1];
    assert Join(halves, '_') == halves[0] + ['_'] + halves[1];
    assert Free(parts[0], '.');
    assert parts[0] == tstamp + "_" + uid;
    FreeAround(tstamp, '_', uid, '.');
  }

  /** The name the agents give their files, `<timestamp>_<uid>.json`, gives the timestamp and uid back. */
  lemma AgentNameRoundTrip(ts: nat, uid: string)
    requires Free(uid, '.') && Free(uid, '_')
    ensures Parse(NatString(ts) + "_" + uid + ".json") == Some((ts, uid))
  {
    var tstamp := NatString(ts);
    DigitsFree(tstamp);
    JsonFree();
    ParseName(tstamp, uid, "json");
    JsonSuffix(tstamp + "_" + uid);
    NatStringParse(ts);
  }

  lemma JsonFree()
    ensures Free("json", '.') && Free("json", '_')
  {
    var j := "json";
    assert j[0] == 'j' && j[1] == 's' && j[2] == 'o' && j[3] == 'n';
  }

  lemma JsonSuffix(name: string)
    ensures name + ".json" == name + "." + "json"
  {
    assert "." + "json" == ".json";
  }

  /** A name `<tstamp>_...` that starts with a digit run ending at a `_` has that run as its `tstamp`. */
  lemma LeadingDigits(filename: string, tstamp: string, uid: string, ext: string)
    requires filename == tstamp + "_" + uid + "." + ext && Free(tstamp, '_')
    requires DigitSpan(filename) < |filename| && filename[DigitSpan(filename)] == '_'
    ensures tstamp == filename[..DigitSpan(filename)]
  {
    assert filename[..|tstamp|] == tstamp;
    assert filename[|tstamp|] == '_';
    var d := DigitSpan(filename);
    assert forall i :: 0 <= i < d ==> IsDigit(filename[i]) by {
      forall i | 0 <= i < d ensures IsDigit(filename[i]) {
        assert filename[..d][i] == filename[i];
      }
    }
    assert forall i :: 0 <= i < |tstamp| ==> filename[i] != '_';
    assert |tstamp| == d;
  }

  /** For a name that matches, the timestamp is the number the name starts with. */
  lemma MatchedTimestamp(filename: string, ts: int, uid: string)
    requires Matches(filename) && Parse(filename) == Some((ts, uid))
    ensures ts == DigitsValue(filename[..DigitSpan(filename)])
  {
    var tstamp, ext := ParseShape(filename, ts, uid);
    LeadingDigits(filename, tstamp, uid, ext);
    assert IsDigits(tstamp);
    DigitsParse(tstamp);
  }

  /**
   * A digit run, `_`, a hex run, any character but a newline and `json`
   * match the pattern, whatever follows.
   */
  lemma PatternAt(tstamp: string, digest: string, c: char, tail: string)
    requires IsDigits(tstamp) && |digest| >= 1 && AllHex(digest) && c != '\n'
    ensures Matches(tstamp + "_" + digest + [c] + "json" + tail)
  {
    var s := tstamp + "_" + digest + [c] + "json" + tail;
    var i := |tstamp|;
    var j := i + 1 + |digest|;
    assert s[..i] == tstamp;
    assert s[i] == '_';
    assert s[i + 1..j] == digest;
    assert s[j] == c;
    assert s[j + 1..j + 5] == "json";
    MatchAt(s, i, j);
  }

  /** Hex digits are neither `.` nor `_`. */
  lemma HexFree(digest: string)
    requires AllHex(digest)
    ensures Free(digest, '.') && Free(digest, '_')
  {
    forall k | 0 <= k < |digest| ensures digest[k] != '.' && digest[k] != '_' {
      assert IsHex(digest[k]);
    }
  }

  /** The names the agents write, `<timestamp>_<hex digest>.json`, match and give the timestamp and digest back. */
  lemma AgentNameMatches(ts: nat, digest: string)
    requires |digest| >= 1 && AllHex(digest)
    ensures Matches(NatString(ts) + "_" + digest + ".json")
    ensures Parse(NatString(ts) + "_" + digest + ".json") == Some((ts, digest))
  {
    var name := NatString(ts) + "_" + digest;
    PatternAt(NatString(ts), digest, '.', "");
    assert name + ['.'] + "json" + "" == name + ".json";
    HexFree(digest);
    AgentNameRoundTrip(ts, digest);
  }

  /**
   * The `.` of the pattern takes any character but a newline: a name with
   * another character there matches, and its uid runs on past the digest.
   */
  lemma DotTakesAnyCharacter(ts: nat, digest: string, c: char, ext: string)
    requires |digest| >= 1 && AllHex(digest) && c != '\n' && c != '.' && c != '_'
    requires Free(ext, '.')
    ensures Matches(NatString(ts) + "_" + digest + [c] + "json." + ext)
    ensures Parse(NatString(ts) + "_" + digest + [c] + "json." + ext) == Some((ts, digest + [c] + "json"))
  {
    var tstamp := NatString(ts);
    var uid := digest + [c] + "json";
    DotText(tstamp, digest, c, ext);
    PatternAt(tstamp, digest, c, "." + ext);
    HexFree(digest);
    assert Free([c], '.') && Free([c], '_');
    JsonFree();
    FreeConcat(digest, [c], '.');
    FreeConcat(digest + [c], "json", '.');
    FreeConcat(digest, [c], '_');
    FreeConcat(digest + [c], "json", '_');
    DigitsFree(tstamp);
    ParseName(tstamp, uid, ext);
    NatStringParse(ts);
  }

  lemma DotText(t: string, d: string, c: char, ext: string)
    ensures t + "_" + d + [c] + "json" + ("." + ext) == t + "_" + d + [c] + "json." + ext
    ensures t + "_" + (d + [c] + "json") + "." + ext == t + "_" + d + [c] + "json." + ext
  {
    assert "json" + "." == "json.";
  }

  /** There is no end anchor: a name that goes on after `json` matches, and is drained. */
  lemma NoEndAnchor(ts: nat, digest: string, rest: string)
    requires |digest| >= 1 && AllHex(digest) && Free(rest, '.')
    ensures Matches(NatString(ts) + "_" + digest + ".json" + rest)
    ensures Parse(NatString(ts) + "_" + digest + ".json" + rest) == Some((ts, digest))
  {
    var tstamp := NatString(ts);
    NoEndText(tstamp, digest, rest);
    PatternAt(tstamp, digest, '.', rest);
    HexFree(digest);
    JsonFree();
    FreeConcat("json", rest, '.');
    DigitsFree(tstamp);
    ParseName(tstamp, digest, "json" + rest);
    NatStringParse(ts);
  }

  lemma NoEndText(t: string, d: string, rest: string)
    ensures t + "_" + d + ['.'] + "json" + rest == t + "_" + d + ".json" + rest
    ensures t + "_" + d + "." + ("json" + rest) == t + "_" + d + ".json" + rest
  {
    assert ['.'] + "json" == ".json";
  }

  /** A name with a second `.` splits into three parts. */
  lemma SecondDotSplit(name: string, ext: string)
    requires Free(name, '.') && Free(ext, '.')
    ensures |Split(name + ".json." + ext, '.')| == 3
  {
    JsonFree();
    SplitPrefix("json", ext, '.');
    SplitFree(ext, '.');
    SplitPrefix(name, "json" + ['.'] + ext, '.');
    SecondDotText(name, ext);
  }

  lemma SecondDotText(name: string, ext: string)
    ensures name + ".json." + ext == name + ['.'] + ("json" + ['.'] + ext)
    ensures name + ['.'] + "json" + ("." + ext) == name + ".json." + ext
  {
    assert ".json." == ['.'] + "json" + ['.'];
  }

  /**
   * A copy such as `<timestamp>_<digest>.json.bak` matches, but the
   * unpacking of its name raises, which ends the whole scan.
   */
  lemma SecondDotRaises(dir: string, ts: nat, digest: string, ext: string, age: real)
    requires |digest| >= 1 && AllHex(digest) && Free(ext, '.') && !(age < MinAge)
    ensures Matches(NatString(ts) + "_" + digest + ".json." + ext)
    ensures Parse(NatString(ts) + "_" + digest + ".json." + ext) == None
    ensures ScanOf(dir, [(NatString(ts) + "_" + digest + ".json." + ext, age)]) == None
  {
    var tstamp := NatString(ts);
    var name := tstamp + "_" + digest;
    PatternAt(tstamp, digest, '.', "." + ext);
    SecondDotText(name, ext);
    DigitsFree(tstamp);
    HexFree(digest);
    assert Free("_", '.');
    FreeConcat(tstamp, "_", '.');
    FreeConcat(tstamp + "_", digest, '.');
    SecondDotSplit(name, ext);
    var listing := [(name + ".json." + ext, age)];
    assert listing[..0] == [];
  }

  // ---------------------------------------------------------------------
  // The grouping.
  // ---------------------------------------------------------------------

  /** `os.path.join(cache_dir, filename)` on POSIX. */
  function PathJoin(dir: string, name: string): string {
    if |name| > 0 && name[0] == '/' then name
    else if |dir| == 0 || dir[|dir| - 1] == '/' then dir + name
    else dir + "/" + name
  }

  /** Within one directory, different relative names give different paths. */
  lemma PathJoinInjective(dir: string, a: string, b: string)
    requires |a| > 0 && a[0] != '/' && |b| > 0 && b[0] != '/'
    requires PathJoin(dir, a) == PathJoin(dir, b)
    ensures a == b
  {
    if |dir| == 0 || dir[|dir| - 1] == '/' {
      assert a == PathJoin(dir, a)[|dir|..];
    } else {
      assert a == PathJoin(dir, a)[|dir| + 1..];
    }
  }

  /** `uid_metadata`: the uids in the order they were first seen, and each uid's list. */
  datatype Groups = Groups(uids: seq<string>, batches: map<string, Batch>)

  /** A file is kept when its name matches and it is old enough. */
  predicate Kept(name: string, age: real) {
    Matches(name) && !(age < MinAge)
  }

  /** The `if uid in uid_metadata` block. */
  function Add(g: Groups, uid: string, item: (int, string)): Groups {
    if uid in g.batches then g.(batches := g.batches[uid := g.batches[uid] + [item]])
    else Groups(g.uids + [uid], g.batches[uid := [item]])
  }

  /**
   * The loop over `all_filenames` for a given test of which files to keep
   * and a given way of taking a name apart; None where the latter raises.
   */
  function Collect(keep: (string, real) -> bool, parse: string -> Option<(int, string)>, dir: string, listing: Listing): Option<Groups>
    decreases |listing|
  {
    if |listing| == 0 then Some(Groups([], map[]))
    else
      match Collect(keep, parse, dir, listing[..|listing| - 1])
      case None => None
      case Some(g) => Visit(keep, parse, dir, g, listing[|listing| - 1])
  }

  /** One iteration of the loop over `all_filenames`. */
  function Visit(keep: (string, real) -> bool, parse: string -> Option<(int, string)>, dir: string, g: Groups, file: (string, real)): Option<Groups> {
    var (name, age) := file;
    if !keep(name, age) then Some(g)
    else
      match parse(name)
      case None => None
      case Some((ts, uid)) => Some(Add(g, uid, (ts, PathJoin(dir, name))))
  }

  /** The scan in `process`. */
  function ScanOf(dir: string, listing: Listing): Option<Groups> {
    Collect(Kept, Parse, dir, listing)
  }

  /** Every uid is listed once and has its batch. */
  ghost predicate Grouped(g: Groups) {
    && (forall i, j :: 0 <= i < j < |g.uids| ==> g.uids[i] != g.uids[j])
    && (forall u :: u in g.batches <==> u in g.uids)
  }

  lemma {:induction false} CollectRaise(keep: (string, real) -> bool, parse: string -> Option<(int, string)>, dir: string, listing: Listing, k: nat)
    requires k <= |listing|
    requires Collect(keep, parse, dir, listing[..k]).None?
    ensures Collect(keep, parse, dir, listing).None?
    decreases |listing| - k
  {
    if k < |listing| {
      assert listing[..k + 1][..k] == listing[..k];
      CollectRaise(keep, parse, dir, listing, k + 1);
    } else {
      assert listing[..k] == listing;
    }
  }

  /** The scan raises exactly when some kept file has a name the unpacking rejects. */
  lemma {:induction false} CollectOk(keep: (string, real) -> bool, parse: string -> Option<(int, string)>, dir: string, listing: Listing)
    ensures Collect(keep, parse, dir, listing).Some? <==>
      forall k :: 0 <= k < |listing| && keep(listing[k].0, listing[k].1) ==> parse(listing[k].0).Some?
    decreases |listing|
  {
    if |listing| > 0 {
      var front := listing[..|listing| - 1];
      CollectOk(keep, parse, dir, front);
      assert forall k :: 0 <= k < |front| ==> front[k] == listing[k];
    }
  }

  lemma {:induction false} CollectGrouped(keep: (string, real) -> bool, parse: string -> Option<(int, string)>, dir: string, listing: Listing)
    requires Collect(keep, parse, dir, listing).Some?
    ensures Grouped(Collect(keep, parse, dir, listing).value)
    decreases |listing|
  {
    if |listing| > 0 {
      CollectGrouped(keep, parse, dir, listing[..|listing| - 1]);
    }
  }

  /** Every item of every batch comes from a kept file of the listing, under the uid in its name. */
  lemma {:induction false} CollectSound(keep: (string, real) -> bool, parse: string -> Option<(int, string)>, dir: string, listing: Listing, uid: string, j: nat) returns (k: nat)
    requires Collect(keep, parse, dir, listing).Some?
    requires uid in Collect(keep, parse, dir, listing).value.batches
    requires j < |Collect(keep, parse, dir, listing).value.batches[uid]|
    ensures k < |listing| && keep(listing[k].0, listing[k].1)
    ensures
      var item := Collect(keep, parse, dir, listing).value.batches[uid][j];
      && parse(listing[k].0) == Some((item.0, uid))
      && item.1 == PathJoin(dir, listing[k].0)
    decreases |listing|
  {
    var front := listing[..|listing| - 1];
    var (name, age) := listing[|listing| - 1];
    if keep(name, age) && parse(name).value.1 == uid && j == |Collect(keep, parse, dir, listing).value.batches[uid]| - 1 {
      k := |listing| - 1;
    } else {
      k := CollectSound(keep, parse, dir, front, uid, j);
      assert front[k] == listing[k];
    }
  }

  /** Every kept file lands in the batch of the uid in its name. */
  lemma {:induction false} CollectComplete(keep: (string, real) -> bool, parse: string -> Option<(int, string)>, dir: string, listing: Listing, k: nat)
    requires Collect(keep, parse, dir, listing).Some?
    requires k < |listing| && keep(listing[k].0, listing[k].1)
    ensures parse(listing[k].0).Some?
    ensures
      var (ts, uid) := parse(listing[k].0).value;
      var g := Collect(keep, parse, dir, listing).value;
      uid in g.batches && (ts, PathJoin(dir, listing[k].0)) in g.batches[uid]
    decreases |listing|
  {
    var front := listing[..|listing| - 1];
    if k < |listing| - 1 {
      assert front[k] == listing[k];
      CollectComplete(keep, parse, dir, front, k);
    }
  }

  /** No file lands in two batches: a path determines its uid and its timestamp. */
  lemma ScanUnique(dir: string, listing: Listing, u1: string, j1: nat, u2: string, j2: nat)
    requires ScanOf(dir, listing).Some?
    requires u1 in ScanOf(dir, listing).value.batches && j1 < |ScanOf(dir, listing).value.batches[u1]|
    requires u2 in ScanOf(dir, listing).value.batches && j2 < |ScanOf(dir, listing).value.batches[u2]|
    requires ScanOf(dir, listing).value.batches[u1][j1].1 == ScanOf(dir, listing).value.batches[u2][j2].1
    ensures u1 == u2
    ensures ScanOf(dir, listing).value.batches[u1][j1] == ScanOf(dir, listing).value.batches[u2][j2]
  {
    var k1 := CollectSound(Kept, Parse, dir, listing, u1, j1);
    var k2 := CollectSound(Kept, Parse, dir, listing, u2, j2);
    PathJoinInjective(dir, listing[k1].0, listing[k2].0);
  }

  /** The loop over `all_filenames`, filling `uid_metadata`; None where it raises. */
  method Scan(dir: string, listing: Listing) returns (r: Option<Groups>)
    ensures r == ScanOf(dir, listing)
  {
    var uids: seq<string> := [];
    var batches: map<string, Batch> := map[];
    var i := 0;
    while i < |listing|
      invariant 0 <= i <= |listing|
      invariant Collect(Kept, Parse, dir, listing[..i]) == Some(Groups(uids, batches))
    {
      assert listing[..i + 1][..i] == listing[..i];
      var next := Take(dir, Groups(uids, batches), listing[i]);
      if next.None? {
        CollectRaise(Kept, Parse, dir, listing, i + 1);
        return None;
      }
      uids, batches := next.value.uids, next.value.batches;
      i := i + 1;
    }
    assert listing[..i] == listing;
    r := Some(Groups(uids, batches));
  }

  /** The body of the loop over `all_filenames`: one file filed under its uid. */
  method Take(dir: string, g: Groups, file: (string, real)) returns (r: Option<Groups>)
    ensures r == Visit(Kept, Parse, dir, g, file)
  {
    var (name, age) := file;
    var uids, batches := g.uids, g.batches;
    if Matches(name) {
      if age < MinAge {
        return Some(g);
      }
      var parsed := Parse(name);
      if parsed.None? {
        return None;
      }
      var (timestamp, uid) := parsed.value;
      var path := PathJoin(dir, name);
      if uid in batches {
        batches := batches[uid := batches[uid] + [(timestamp, path)]];
      } else {
        uids := uids + [uid];
        batches := batches[uid := [(timestamp, path)]];
      }
    }
    r := Some(Groups(uids, batches));
  }

  // ---------------------------------------------------------------------
  // Draining the batches.
  // ---------------------------------------------------------------------

  /** `THREAD_QUEUE.put` for each uid, in the order of `uid_metadata.keys()`. */
  function Queue(g: Groups): (q: seq<(string, Batch)>)
    requires Grouped(g)
    ensures |q| == |g.uids|
    ensures forall i :: 0 <= i < |q| ==> q[i].0 == g.uids[i] && q[i].1 == g.batches[g.uids[i]]
  {
    seq(|g.uids|, i requires 0 <= i < |g.uids| => (g.uids[i], g.batches[g.uids[i]]))
  }

  /** The batches drained one after the other; a batch that raises does not stop the next. */
  function DrainAll(hash: Digest, validTs: int -> bool, w: World, queue: seq<(string, Batch)>): World
    decreases |queue|
  {
    if |queue| == 0 then w
    else
      var w1 := DrainAll(hash, validTs, w, queue[..|queue| - 1]);
      var (uid, metadata) := queue[|queue| - 1];
      RunBatch(hash, validTs, uid, w1, metadata).0
  }

  /** Draining every batch keeps the shared lists duplicate-free and backed by the tables. */
  lemma {:induction false} DrainAllFacts(hash: Digest, validTs: int -> bool, w: World, queue: seq<(string, Batch)>)
    ensures
      var w1 := DrainAll(hash, validTs, w, queue);
      && Extends(w.agents, w1.agents) && Extends(w.datapoints, w1.datapoints)
      && (NoDup(w.agents) ==> NoDup(w1.agents))
      && (NoDup(w.datapoints) ==> NoDup(w1.datapoints))
      && (Synced(w) ==> Synced(w1))
      && w.failures <= w1.failures
    decreases |queue|
  {
    if |queue| > 0 {
      var front := queue[..|queue| - 1];
      DrainAllFacts(hash, validTs, w, front);
      var w1 := DrainAll(hash, validTs, w, front);
      var (uid, metadata) := queue[|queue| - 1];
      RunFacts(hash, validTs, uid, w1, SortTuples(metadata));
      var w2 := DrainAll(hash, validTs, w, queue);
      ExtendsTransitive(w.agents, w1.agents, w2.agents);
      ExtendsTransitive(w.datapoints, w1.datapoints, w2.datapoints);
    }
  }

  /** `process`: scan the directory, then drain every batch with the worker; false where the scan raises. */
  method Process(worker: FillDB, hash: Digest, validTs: int -> bool, dir: string, listing: Listing) returns (scanned: bool)
    modifies worker, worker.spool, worker.db
    ensures scanned <==> ScanOf(dir, listing).Some?
    ensures scanned ==> Grouped(ScanOf(dir, listing).value)
    ensures worker.State() ==
      if scanned then DrainAll(hash, validTs, old(worker.State()), Queue(ScanOf(dir, listing).value))
      else old(worker.State())
  {
    var groups := Scan(dir, listing);
    if groups.None? {
      return false;
    }
    CollectGrouped(Kept, Parse, dir, listing);
    var g := groups.value;
    ghost var w0 := worker.State();
    ghost var queue := Queue(g);
    var i := 0;
    while i < |g.uids|
      invariant 0 <= i <= |g.uids|
      invariant worker.State() == DrainAll(hash, validTs, w0, queue[..i])
    {
      assert queue[..i + 1][..i] == queue[..i];
      var uid := g.uids[i];
      var finished := worker.Run(hash, validTs, uid, g.batches[uid]);
      i := i + 1;
    }
    assert queue[..i] == queue;
    scanned := true;
  }
}
