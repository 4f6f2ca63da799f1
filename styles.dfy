/** The style list and the names derived from each style id: the comprehension
    that parses the STYLES setting (main.py:23), the short name used in messages
    and file names (main.py:90) and the output file name (main.py:91). */
module Styles {
  import opened Wrappers
  import opened Text
  import Timestamp

  /** What every entry of the parsed style list looks like: non-empty, without
      leading or trailing whitespace, and without a comma. */
  predicate IsStyleId(t: string)
  {
    |t| > 0 && !IsSpace(t[0]) && !IsSpace(t[|t| - 1]) && ',' !in t
  }

  /** `[p.strip() for p in pieces if p.strip()]`. */
  function Kept(pieces: seq<string>): (ids: seq<string>)
    requires forall i :: 0 <= i < |pieces| ==> ',' !in pieces[i]
    ensures |ids| <= |pieces|
    ensures forall i :: 0 <= i < |ids| ==> IsStyleId(ids[i])
    decreases |pieces|
  {
    if |pieces| == 0 then []
    else
      var t := Strip(pieces[0]);
      (if t != "" then [t] else []) + Kept(pieces[1..])
  }

  /** The style ids named by the STYLES setting: the comma-separated entries,
      each stripped of surrounding whitespace, with the entries that strip to
      nothing dropped, in the order they appear. */
  function ParseStyles(styles: string): (ids: seq<string>)
    ensures forall i :: 0 <= i < |ids| ==> IsStyleId(ids[i])
  {
    Kept(Split(styles, ','))
  }

  lemma {:induction false} KeptAppend(p: seq<string>, q: seq<string>)
    requires forall i :: 0 <= i < |p| ==> ',' !in p[i]
    requires forall i :: 0 <= i < |q| ==> ',' !in q[i]
    ensures Kept(p + q) == Kept(p) + Kept(q)
    decreases |p|
  {
    if |p| > 0 {
      var t := Strip(p[0]);
      var head := if t != "" then [t] else [];
      assert (p + q)[0] == p[0] && (p + q)[1..] == p[1..] + q;
      KeptAppend(p[1..], q);
      calc {
        Kept(p + q);
        head + Kept(p[1..] + q);
        head + (Kept(p[1..]) + Kept(q));
        (head + Kept(p[1..])) + Kept(q);
        Kept(p) + Kept(q);
      }
    } else {
      assert p + q == q;
    }
  }

  /** Entries are parsed independently and keep their order: the ids of
      `a + "," + b` are the ids of `a` followed by the ids of `b`. */
  lemma ParseStylesAround(a: string, b: string)
    ensures ParseStyles(a + "," + b) == ParseStyles(a) + ParseStyles(b)
  {
    SplitAround(a, ',', b);
    KeptAppend(Split(a, ','), Split(b, ','));
  }

  /** A single entry contributes its stripped text, or nothing when it is empty
      or whitespace only. */
  lemma ParseStylesEntry(t: string)
    requires ',' !in t
    ensures ParseStyles(t) == if AllSpace(t) then [] else [Strip(t)]
  {
    SplitWithoutSeparator(t, ',');
    assert Split(t, ',')[1..] == [];
  }

  /** A setting made only of whitespace and commas, such as `" , "`, names no
      style at all: every entry strips to the empty string and is dropped. */
  lemma {:induction false} ParseStylesBlank(s: string)
    requires forall i :: 0 <= i < |s| ==> IsSpace(s[i]) || s[i] == ','
    ensures ParseStyles(s) == []
    decreases |s|
  {
    if k :| 0 <= k < |s| && s[k] == ',' {
      var a, b := s[..k], s[k + 1..];
      assert s == a + "," + b;
      ParseStylesBlank(a);
      ParseStylesBlank(b);
      ParseStylesAround(a, b);
    } else {
      ParseStylesEntry(s);
    }
  }

  /** A style id that is already clean is its own stripped form. */
  lemma StripStyleId(t: string)
    requires IsStyleId(t)
    ensures Strip(t) == t
  {
    StripUnique(t, 0, |t|);
  }

  /** Whitespace around a clean entry is dropped. */
  lemma ParseStylesPadded(before: string, t: string, after: string)
    requires AllSpace(before) && AllSpace(after) && ',' !in before && ',' !in after
    requires IsStyleId(t)
    ensures ParseStyles(before + t + after) == [t]
  {
    var s := before + t + after;
    var i, j := |before|, |before| + |t|;
    assert forall k :: 0 <= k < i ==> s[k] == before[k];
    assert forall k :: j <= k < |s| ==> s[k] == after[k - j];
    assert s[i] == t[0] && s[j - 1] == t[|t| - 1] && s[i..j] == t;
    StripUnique(s, i, j);
    ParseStylesEntry(s);
  }

  /** Parsing undoes `",".join(ids)` for any list of clean style ids. */
  lemma {:induction false} ParseStylesJoin(ids: seq<string>)
    requires forall i :: 0 <= i < |ids| ==> IsStyleId(ids[i])
    ensures ParseStyles(Join(ids, ',')) == ids
    decreases |ids|
  {
    if |ids| == 0 {
      assert Split("", ',') == [""];
      assert Strip("") == "";
    } else {
      ParseStylesEntry(ids[0]);
      StripStyleId(ids[0]);
      if |ids| > 1 {
        ParseStylesJoin(ids[1..]);
        ParseStylesAround(ids[0], Join(ids[1..], ','));
        assert [ids[0]] + ids[1..] == ids;
      }
    }
  }

  /** A clean entry parses to itself. */
  lemma ParseStylesClean(t: string)
    requires IsStyleId(t)
    ensures ParseStyles(t) == [t]
  {
    StripStyleId(t);
    ParseStylesEntry(t);
  }

  /** A trailing comma adds an empty entry, which is dropped. */
  lemma ParseStylesTrailingComma(styles: string)
    ensures ParseStyles(styles + ",") == ParseStyles(styles)
  {
    var u := styles + ",";
    var empty := u[|u|..];
    assert u == styles + [','] + empty;
    ParseStylesAround(styles, empty);
    ParseStylesEntry(empty);
  }

  /** The shape of `"a/b,  c/d ,"`: a clean entry, then an entry padded with
      whitespace, then a trailing comma, parse to the two clean ids in order. */
  lemma ParseStylesTwoPadded(first: string, before: string, second: string, after: string)
    requires IsStyleId(first) && IsStyleId(second)
    requires AllSpace(before) && AllSpace(after) && ',' !in before && ',' !in after
    ensures ParseStyles(first + "," + (before + second + after) + ",") == [first, second]
  {
    var padded := before + second + after;
    ParseStylesTrailingComma(first + "," + padded);
    ParseStylesAround(first, padded);
    ParseStylesClean(first);
    ParseStylesPadded(before, second, after);
  }

  /** `style_id.split("/")[-1]`: the short name of a style, used in messages
      and in the output file name. */
  function StyleName(styleId: string): string
  {
    Last(Split(styleId, '/'))
  }

  /** The short name is the part of the id after its last `/`: it contains no
      `/`, ends the id, follows a `/` when the id has one, and is the whole id
      when it has none. */
  lemma StyleNameSuffix(styleId: string)
    ensures var name := StyleName(styleId);
      && '/' !in name
      && EndsWith(styleId, name)
      && ('/' !in styleId ==> name == styleId)
      && ('/' in styleId ==> |name| < |styleId| && styleId[|styleId| - |name| - 1] == '/')
  {
    SplitLast(styleId, '/');
  }

  const FilePrefix := "banner-map_"
  const FileSuffix := ".png"

  /** `f"banner-map_{style_name}_{timestamp}.png"`. */
  function FileName(styleName: string, timestamp: string): string
  {
    FilePrefix + styleName + "_" + timestamp + FileSuffix
  }

  /** `name` is an output file of the run whose timestamp is `timestamp`. */
  predicate HasTimestamp(name: string, timestamp: string)
  {
    EndsWith(name, "_" + timestamp + FileSuffix)
  }

  /** Every file name of a run ends with that run's timestamp and the extension. */
  lemma FileNameHasTimestamp(styleName: string, timestamp: string)
    ensures HasTimestamp(FileName(styleName, timestamp), timestamp)
  {
    var f := FileName(styleName, timestamp);
    assert f == (FilePrefix + styleName) + ("_" + timestamp + FileSuffix);
  }

  /** Reads an output file name back into its style name and its timestamp,
      using the fixed width of `%Y%m%d_%H%M%S`; None for any other name. */
  function FileNameFields(name: string): (r: Option<(string, string)>)
    ensures r.Some? ==> StartsWith(name, FilePrefix) && HasTimestamp(name, r.value.1)
  {
    var n := |name|;
    var tail := 1 + Timestamp.Width + |FileSuffix|;
    if n >= |FilePrefix| + tail && StartsWith(name, FilePrefix) && EndsWith(name, FileSuffix)
       && name[n - tail] == '_'
    then
      var ts := name[n - tail + 1..n - |FileSuffix|];
      assert name[n - tail..] == "_" + ts + FileSuffix;
      Some((name[|FilePrefix|..n - tail], ts))
    else None
  }

  /** The file name determines the style name and the timestamp it was built
      from, so two runs or two short names never share a file name. */
  lemma FileNameRoundTrip(styleName: string, timestamp: string)
    requires |timestamp| == Timestamp.Width
    ensures HasTimestamp(FileName(styleName, timestamp), timestamp)
    ensures FileNameFields(FileName(styleName, timestamp)) == Some((styleName, timestamp))
  {
    var tail := "_" + timestamp + FileSuffix;
    var f := FileName(styleName, timestamp);
    assert f == FilePrefix + styleName + tail;
    var n := |f|;
    ThreeParts(FilePrefix, styleName, tail);
    ThreeParts("_", timestamp, FileSuffix);
    assert f[n - 20..] == tail;
    assert f[n - 4..] == tail[16..];
    assert f[n - 19..n - 4] == tail[1..16];
  }

  /** The three parts of a concatenation are found at their offsets. */
  lemma ThreeParts(a: string, b: string, c: string)
    ensures var s := a + b + c;
      s[..|a|] == a && s[|a|..|a| + |b|] == b && s[|a| + |b|..] == c
  {
  }
}
