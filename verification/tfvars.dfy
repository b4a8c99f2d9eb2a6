/**
 * The `.env` to `terraform.tfvars` converter (`generate_tfvars` in
 * tools/generate_tfvars.py).
 *
 * The env file is the sequence of its lines (`None` when it does not
 * exist); the tfvars file is the sequence of lines written to it, each
 * ending with a newline.
 */
module Tfvars {
  import opened Wrappers
  import opened Text

  datatype Pair = Pair(key: string, value: string)

  /** Index of the first `c` in `s`. */
  function IndexOf(s: string, c: char): (r: Option<nat>)
    ensures r.None? <==> c !in s
    ensures r.Some? ==> r.value < |s| && s[r.value] == c && c !in s[..r.value]
  {
    if s == [] then None
    else if s[0] == c then Some(0)
    else
      match IndexOf(s[1..], c)
      case None => None
      case Some(i) =>
        assert s[..i + 1] == [s[0]] + s[1..][..i];
        Some(i + 1)
  }

  /** `line.split('#')[0]`: the text before the first `#`. */
  function BeforeComment(line: string): (r: string)
    ensures StartsWith(line, r) && '#' !in r
    ensures |r| < |line| ==> line[|r|] == '#'
  {
    match IndexOf(line, '#')
    case None => line
    case Some(i) => line[..i]
  }

  /** The key: the text before the `=`, trimmed and lower-cased. */
  function KeyText(text: string): string {
    Lower(Strip(text))
  }

  /** The value: the text after the `=`, trimmed, then without double and then single quotes. */
  function ValueText(text: string): string {
    StripChar(StripChar(Strip(text), '"'), '\'')
  }

  /** Split a comment-free line at its first `=`, if it has one. */
  function SplitPair(body: string): (r: Option<Pair>)
    ensures r.None? <==> '=' !in body
  {
    match IndexOf(body, '=')
    case None => None
    case Some(i) => Some(Pair(KeyText(body[..i]), ValueText(body[i + 1..])))
  }

  /** The key and value one line of the env file contributes, if any. */
  function ParseLine(raw: string): Option<Pair> {
    var line := Strip(raw);
    if line == [] || line[0] == '#' then None
    else if '=' !in line then None
    else SplitPair(BeforeComment(line))
  }

  /** What one line adds to `kv_pairs`. */
  function Contribution(raw: string): seq<Pair> {
    match ParseLine(raw)
    case None => []
    case Some(p) => [p]
  }

  /** `kv_pairs` after reading `lines`. */
  function Pairs(lines: seq<string>): seq<Pair> {
    if lines == [] then [] else Pairs(lines[..|lines| - 1]) + Contribution(lines[|lines| - 1])
  }

  /** `max_key_len` after appending `pairs`, starting from 0. */
  function MaxKeyLen(pairs: seq<Pair>): nat {
    if pairs == [] then 0
    else
      var m := MaxKeyLen(pairs[..|pairs| - 1]);
      var k := |pairs[|pairs| - 1].key|;
      if k > m then k else m
  }

  /** One output line: the key padded to `width`, then ` = ` and the quoted value. */
  function RenderLine(p: Pair, width: nat): string
    requires |p.key| <= width
  {
    p.key + Spaces(width - |p.key|) + " = \"" + p.value + "\"\n"
  }

  function Render(pairs: seq<Pair>): seq<string> {
    MaxKeyLenIsMax(pairs);
    seq(|pairs|, i requires 0 <= i < |pairs| => RenderLine(pairs[i], MaxKeyLen(pairs)))
  }

  /** The whole script: nothing is written when the env file is missing. */
  method GenerateTfvars(envFile: Option<seq<string>>) returns (output: Option<seq<string>>)
    ensures envFile.None? ==> output.None?
    ensures envFile.Some? ==> output == Some(Render(Pairs(envFile.value)))
  {
    if envFile.None? {
      return None;
    }
    var pairs, maxKeyLen := ReadPairs(envFile.value);
    MaxKeyLenIsMax(pairs);
    var out := WriteLines(pairs, maxKeyLen);
    assert out == Render(pairs);
    output := Some(out);
  }

  /** The reading loop: `kv_pairs` and `max_key_len`. */
  method ReadPairs(lines: seq<string>) returns (pairs: seq<Pair>, maxKeyLen: nat)
    ensures pairs == Pairs(lines) && maxKeyLen == MaxKeyLen(pairs)
  {
    pairs := [];
    maxKeyLen := 0;
    for k := 0 to |lines|
      invariant pairs == Pairs(lines[..k])
      invariant maxKeyLen == MaxKeyLen(pairs)
    {
      PairsSnoc(lines, k);
      var line := Strip(lines[k]);
      if line == [] || line[0] == '#' {
        continue;
      }
      if '=' in line {
        var parts := SplitPair(BeforeComment(line));
        if parts.None? {
          continue;
        }
        var key := parts.value.key;
        pairs := pairs + [Pair(key, parts.value.value)];
        assert pairs[..|pairs| - 1] == Pairs(lines[..k]);
        if |key| > maxKeyLen {
          maxKeyLen := |key|;
        }
      }
    }
    assert lines[..|lines|] == lines;
  }

  /** The writing loop: each pair padded to `width`. */
  method WriteLines(pairs: seq<Pair>, width: nat) returns (out: seq<string>)
    requires forall i :: 0 <= i < |pairs| ==> |pairs[i].key| <= width
    ensures |out| == |pairs|
    ensures forall i :: 0 <= i < |pairs| ==> out[i] == RenderLine(pairs[i], width)
  {
    out := [];
    for k := 0 to |pairs|
      invariant |out| == k
      invariant forall i :: 0 <= i < k ==> out[i] == RenderLine(pairs[i], width)
    {
      var padding := Spaces(width - |pairs[k].key|);
      out := out + [pairs[k].key + padding + " = \"" + pairs[k].value + "\"\n"];
    }
  }

  lemma PairsSnoc(lines: seq<string>, k: nat)
    requires k < |lines|
    ensures Pairs(lines[..k + 1]) == Pairs(lines[..k]) + Contribution(lines[k])
  {
    assert lines[..k + 1][..k] == lines[..k];
  }

  // ---------------------------------------------------------------------
  // Properties

  /** `max_key_len` is the length of the longest key, and 0 without pairs. */
  lemma {:induction false} MaxKeyLenIsMax(pairs: seq<Pair>)
    ensures forall i :: 0 <= i < |pairs| ==> |pairs[i].key| <= MaxKeyLen(pairs)
    ensures pairs == [] ==> MaxKeyLen(pairs) == 0
    ensures pairs != [] ==> exists i :: 0 <= i < |pairs| && |pairs[i].key| == MaxKeyLen(pairs)
  {
    if pairs != [] {
      var init := pairs[..|pairs| - 1];
      MaxKeyLenIsMax(init);
      forall i | 0 <= i < |init| ensures init[i] == pairs[i] {
      }
      if init != [] && MaxKeyLen(init) >= |pairs[|pairs| - 1].key| {
        var i :| 0 <= i < |init| && |init[i].key| == MaxKeyLen(init);
        assert |pairs[i].key| == MaxKeyLen(pairs);
      }
    }
  }

  /**
   * A line yields a pair exactly when, once trimmed, it is not empty, does
   * not start with `#`, and has an `=` before its first `#`.
   */
  lemma ParseLineIff(raw: string)
    ensures ParseLine(raw).Some? <==>
      var line := Strip(raw);
      line != [] && line[0] != '#' && '=' in BeforeComment(line)
  {
    var line := Strip(raw);
    if line != [] && line[0] != '#' && '=' in BeforeComment(line) {
      assert StartsWith(line, BeforeComment(line));
      var i :| 0 <= i < |BeforeComment(line)| && BeforeComment(line)[i] == '=';
      assert line[i] == '=';
      assert ParseLine(raw) == SplitPair(BeforeComment(line));
    } else if line != [] && line[0] != '#' && '=' in line {
      assert ParseLine(raw) == SplitPair(BeforeComment(line));
    }
  }

  /** A line that yields a pair is split after trimming and cutting off the comment. */
  lemma ParsedBody(raw: string)
    requires ParseLine(raw).Some?
    ensures ParseLine(raw) == SplitPair(BeforeComment(Strip(raw)))
  {
  }

  /**
   * The split happens at the first `=`: the key is the text before it,
   * trimmed and lower-cased, and the value everything after it, so the value
   * may itself contain `=`.
   */
  lemma SplitAtFirstEquals(body: string)
    ensures SplitPair(body).Some? <==> '=' in body
    ensures forall i :: 0 <= i < |body| && body[i] == '=' && '=' !in body[..i] ==>
      SplitPair(body) == Some(Pair(KeyText(body[..i]), ValueText(body[i + 1..])))
  {
    forall i | 0 <= i < |body| && body[i] == '=' && '=' !in body[..i]
      ensures SplitPair(body) == Some(Pair(KeyText(body[..i]), ValueText(body[i + 1..])))
    {
      FirstUnique(body, '=', i, IndexOf(body, '=').value);
    }
  }

  /** Two positions that both hold the first `c` of `s` coincide. */
  lemma FirstUnique(s: string, c: char, i: nat, j: nat)
    requires i < |s| && s[i] == c && c !in s[..i]
    requires j < |s| && s[j] == c && c !in s[..j]
    ensures i == j
  {
    assert forall k :: 0 <= k < i ==> s[..i][k] == s[k];
    assert forall k :: 0 <= k < j ==> s[..j][k] == s[k];
  }

  /** Keys come out lower case, and a value holds no `#` when the split text has none. */
  lemma PairShape(body: string)
    requires SplitPair(body).Some?
    ensures IsLower(SplitPair(body).value.key)
    ensures '#' !in body ==> '#' !in SplitPair(body).value.value
  {
    var i := IndexOf(body, '=').value;
    assert SplitPair(body).value == Pair(KeyText(body[..i]), ValueText(body[i + 1..]));
    KeyIsLower(body[..i]);
    if '#' !in body {
      RestHasNoHash(body, i + 1);
    }
  }

  lemma RestHasNoHash(body: string, n: nat)
    requires n <= |body| && '#' !in body
    ensures '#' !in ValueText(body[n..])
  {
    NotInDrop(body, n, '#');
    ValueHasNoHash(body[n..]);
  }

  lemma NotInDrop<T>(s: seq<T>, n: nat, x: T)
    requires n <= |s| && x !in s
    ensures x !in s[n..]
  {
    assert forall k :: 0 <= k < |s| - n ==> s[n..][k] == s[n + k];
  }

  /** What a parsed line yields: a lower-case key and a value without `#`. */
  lemma ParsedShape(raw: string)
    requires ParseLine(raw).Some?
    ensures IsLower(ParseLine(raw).value.key) && '#' !in ParseLine(raw).value.value
  {
    ParsedBody(raw);
    PairShape(BeforeComment(Strip(raw)));
  }

  lemma KeyIsLower(text: string)
    ensures IsLower(KeyText(text))
  {
    LowerIsLower(Strip(text));
  }

  lemma ValueHasNoHash(text: string)
    requires '#' !in text
    ensures '#' !in ValueText(text)
  {
    AbsentAfterStrip(text, '"', '#');
    AbsentAfterStrip(Strip(text), '"', '#');
    AbsentAfterStrip(StripChar(Strip(text), '"'), '\'', '#');
  }

  /**
   * Everything from the first `#` on is ignored: appending a comment to a
   * trimmed line that has none changes nothing, and an `=` inside the
   * comment alone does not make a pair.
   */
  lemma CommentIgnored(line: string, comment: string)
    requires Trimmed(line) && line[0] != '#' && '#' !in line
    ensures ParseLine(line + "#" + comment) == ParseLine(line)
    ensures '=' !in line ==> ParseLine(line + "#" + comment) == None
  {
    var raw := line + "#" + comment;
    assert raw == line + ("#" + comment);
    StripKeepsHead(line, "#" + comment);
    var s := Strip(raw);
    FirstAt(s, '#', |line|);
    assert BeforeComment(s) == line;
    assert BeforeComment(line) == line;
    assert Strip(line) == line;
    if '=' in line {
      var j :| 0 <= j < |line| && line[j] == '=';
      assert s[j] == '=';
    }
  }

  /**
   * Stripping a line made of `head` (trimmed) and a part starting with `#`
   * keeps `head` and the `#`.
   */
  lemma StripKeepsHead(head: string, tail: string)
    requires Trimmed(head) && tail != [] && tail[0] == '#'
    ensures var s := Strip(head + tail);
      |s| > |head| && s[..|head|] == head && s[|head|] == '#'
  {
    var raw := head + tail;
    assert raw[0] == head[0];
    assert LStripBy(raw, IsSpace) == raw;
    var s := RStripBy(raw, IsSpace);
    assert raw[|head|] == '#';
    NotSpaces('#');
    assert |s| > |head|;
    TakeTake(raw, |s|, |head|);
    assert raw[..|head|] == head;
  }

  /** The characters the converter looks for are not white space. */
  lemma NotSpaces(c: char)
    requires c in "#=\""
    ensures !IsSpace(c)
  {
  }

  lemma TakeTake<T>(s: seq<T>, n: nat, m: nat)
    requires m <= n <= |s|
    ensures s[..n][..m] == s[..m]
  {
  }

  /** `IndexOf` finds `c` at `i` when no earlier position holds it. */
  lemma FirstAt(s: string, c: char, i: nat)
    requires i < |s| && s[i] == c && forall j :: 0 <= j < i ==> s[j] != c
    ensures IndexOf(s, c) == Some(i)
  {
    assert c in s;
  }

  /**
   * In every output line the key starts the line, spaces pad it to the
   * longest key, ` = ` follows at that column and the value comes quoted.
   */
  lemma RenderAligned(pairs: seq<Pair>, i: nat)
    requires i < |pairs|
    ensures var w := MaxKeyLen(pairs);
      var r := Render(pairs)[i];
      |Render(pairs)| == |pairs| &&
      |pairs[i].key| <= w && |r| == w + |pairs[i].value| + 6 &&
      r[..|pairs[i].key|] == pairs[i].key &&
      (forall k :: |pairs[i].key| <= k < w ==> r[k] == ' ') &&
      r[w..w + 4] == " = \"" && r[w + 4..w + 4 + |pairs[i].value|] == pairs[i].value &&
      r[w + 4 + |pairs[i].value|..] == "\"\n"
  {
    MaxKeyLenIsMax(pairs);
    var w := MaxKeyLen(pairs);
    var p := pairs[i];
    var pad := Spaces(w - |p.key|);
    var a := p.key + pad;
    var b := " = \"" + p.value;
    var r := a + b + "\"\n";
    assert Render(pairs)[i] == r;
    assert |a| == w;
    assert r[..|p.key|] == p.key;
    forall k | |p.key| <= k < w ensures r[k] == ' ' {
      assert r[k] == pad[k - |p.key|];
    }
    assert r[w..w + 4] == " = \"";
    assert r[w + 4..w + 4 + |p.value|] == p.value;
  }

  /**
   * Reading back a written line gives the pair again, for keys that are
   * non-empty, lower case, trimmed and free of `=` and `#`, and values free
   * of `#` that neither start nor end with a quote character.
   */
  lemma RoundTrip(p: Pair, width: nat)
    requires |p.key| <= width
    requires Trimmed(p.key) && IsLower(p.key) && '=' !in p.key && '#' !in p.key
    requires '#' !in p.value
    requires p.value == [] || (p.value[0] !in "\"'" && p.value[|p.value| - 1] !in "\"'")
    ensures ParseLine(RenderLine(p, width)) == Some(p)
  {
    var pad := Spaces(width - |p.key|) + " ";
    var quoted := "\"" + p.value + "\"";
    var line := p.key + pad + "=" + " " + quoted;
    Regroup(p.key, Spaces(width - |p.key|), p.value);
    var raw := RenderLine(p, width);
    assert raw == line + "\n";
    ReadWrittenLine(line, p.key, pad, quoted);
    KeyBack(p.key, pad);
    ValueBack(p.value);
  }

  /** The parser reads a written line (before its newline) as its key part and value part. */
  lemma ReadWrittenLine(line: string, key: string, pad: string, quoted: string)
    requires line == key + pad + "=" + " " + quoted
    requires Trimmed(key) && '=' !in key && '#' !in key
    requires quoted != [] && quoted[|quoted| - 1] == '"' && '#' !in quoted
    requires forall k :: 0 <= k < |pad| ==> pad[k] == ' '
    ensures ParseLine(line + "\n") == Some(Pair(KeyText(key + pad), ValueText(" " + quoted)))
  {
    assert line[|line| - 1] == '"';
    StripLine(line);
    WrittenLine(key, pad, quoted);
    assert ParseLine(line + "\n") == SplitPair(line);
    SplitWrittenLine(line, key, pad, quoted);
  }

  lemma SplitWrittenLine(line: string, key: string, pad: string, quoted: string)
    requires line == key + pad + "=" + " " + quoted
    requires IndexOf(line, '=') == Some(|key| + |pad|)
    requires line[..|key| + |pad|] == key + pad && line[|key| + |pad| + 1..] == " " + quoted
    ensures SplitPair(line) == Some(Pair(KeyText(key + pad), ValueText(" " + quoted)))
  {
  }

  lemma KeyBack(key: string, pad: string)
    requires Trimmed(key) && IsLower(key)
    requires forall k :: 0 <= k < |pad| ==> pad[k] == ' '
    ensures KeyText(key + pad) == key
  {
    StripTrailingSpaces(key, pad);
    LowerIsLower(key);
  }

  lemma ValueBack(v: string)
    requires v == [] || (v[0] !in "\"'" && v[|v| - 1] !in "\"'")
    ensures ValueText(" " + ("\"" + v + "\"")) == v
  {
    var quoted := "\"" + v + "\"";
    QuotedTrimmed(v);
    StripLeadingSpace(quoted);
    Unquote(v, '"');
    assert StripChar(v, '\'') == v;
  }

  /** Where the parser cuts a written line: no comment, and the first `=` after the padding. */
  lemma WrittenLine(key: string, pad: string, quoted: string)
    requires '=' !in key && '#' !in key && '#' !in quoted
    requires forall k :: 0 <= k < |pad| ==> pad[k] == ' '
    ensures var line := key + pad + "=" + " " + quoted;
      var i := |key| + |pad|;
      BeforeComment(line) == line && IndexOf(line, '=') == Some(i) &&
      line[..i] == key + pad && line[i + 1..] == " " + quoted
  {
    var line := key + pad + "=" + " " + quoted;
    assert '#' !in pad;
    assert '#' !in line;
    var i := |key| + |pad|;
    assert line[i] == '=';
    assert line[..i] == key + pad;
    assert line[i + 1..] == " " + quoted;
    forall j | 0 <= j < i ensures line[j] != '=' {
      assert line[j] == (key + pad)[j];
    }
    FirstAt(line, '=', i);
  }

  /** One leading space before a trimmed text is removed by `strip`. */
  lemma StripLeadingSpace(s: string)
    requires Trimmed(s)
    ensures Strip(" " + s) == s
  {
    assert (" " + s)[1..] == s;
    assert LStripBy(" " + s, IsSpace) == LStripBy(s, IsSpace);
  }

  /** The written line, regrouped around its `=`. */
  lemma Regroup(key: string, spaces: string, value: string)
    ensures key + spaces + " = \"" + value + "\"\n" ==
      key + (spaces + " ") + "=" + " " + ("\"" + value + "\"") + "\n"
  {
  }

  lemma QuotedTrimmed(v: string)
    ensures Trimmed("\"" + v + "\"")
  {
  }

  /** A line ending in a newline strips to the line itself when that is trimmed. */
  lemma StripLine(line: string)
    requires Trimmed(line)
    ensures Strip(line + "\n") == line
  {
    StripTrailingSpaces(line, "\n");
  }

  /** Trailing white space after a trimmed text is removed by `strip`. */
  lemma StripTrailingSpaces(s: string, pad: string)
    requires Trimmed(s)
    requires forall k :: 0 <= k < |pad| ==> IsSpace(pad[k])
    ensures Strip(s + pad) == s
  {
    assert LStripBy(s + pad, IsSpace) == s + pad;
    RStripByPadding(s, pad, IsSpace);
  }

  /** Removing the quotes a line was written with gives the value back. */
  lemma Unquote(v: string, q: char)
    requires v == [] || (v[0] != q && v[|v| - 1] != q)
    ensures StripChar([q] + v + [q], q) == v
  {
    var s := [q] + v + [q];
    var drop := c => c == q;
    assert s[1..] == v + [q];
    if v == [] {
      assert LStripBy(s, drop) == [];
    } else {
      assert LStripBy(s, drop) == v + [q];
    }
    RStripByPadding(v, [q], drop);
  }
}
