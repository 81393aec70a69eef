// lib/email/utils/html-builder.ts: the shared pieces of the e-mail HTML (header, bullet list,
// footer) and the HTML-to-text conversion used for the plain-text part of every e-mail.

module HtmlBuilder {
  import opened Wrappers
  import opened Text
  import EmailPreferences

  // ---- htmlToPlainText ----

  /** The `i` flag without the `u` flag folds ASCII letters only. */
  function Lower(c: char): char
  {
    if 'A' <= c <= 'Z' then (c as int + 32) as char else c
  }

  /** `pat` (lower-case) occurs at `i`, ignoring ASCII case. */
  predicate CiOccursAt(s: string, pat: string, i: nat)
  {
    i + |pat| <= |s| && forall k :: 0 <= k < |pat| ==> Lower(s[i + k]) == pat[k]
  }

  /** The first case-insensitive occurrence of `pat` at or after `from`. */
  function CiIndexOf(s: string, pat: string, from: nat): (r: Option<nat>)
    requires from <= |s|
    decreases |s| - from
    ensures r.Some? ==> from <= r.value && CiOccursAt(s, pat, r.value)
    ensures r.Some? ==> forall j :: from <= j < r.value ==> !CiOccursAt(s, pat, j)
  {
    if CiOccursAt(s, pat, from) then Some(from)
    else if from == |s| then None
    else CiIndexOf(s, pat, from + 1)
  }

  /**
   * `/<tag[^>]*>[\s\S]*?<\/tag>/i` at the start of `s`: the length of the match. The opening
   * tag runs to the first '>', the block to the first closing tag after it.
   */
  function BlockEnd(s: string, tag: string): (r: Option<nat>)
    ensures r.Some? ==> 0 < r.value <= |s| && s[0] == '<'
  {
    if CiOccursAt(s, "<" + tag, 0) then
      assert Lower(s[0]) == ("<" + tag)[0] == '<';
      match IndexOf(s, ">", |tag| + 1)
      case Some(j) =>
        (match CiIndexOf(s, "</" + tag + ">", j + 1)
         case Some(k) => assert |"</" + tag + ">"| == |tag| + 3; Some(k + |tag| + 3)
         case None => None)
      case None => None
    else None
  }

  /** `.replace(/<tag[^>]*>[\s\S]*?<\/tag>/gi, '')`. */
  function RemoveBlocks(s: string, tag: string): (r: string)
    ensures |r| <= |s|
    decreases |s|
  {
    if s == [] then []
    else
      match BlockEnd(s, tag)
      case Some(e) => RemoveBlocks(s[e..], tag)
      case None => [s[0]] + RemoveBlocks(s[1..], tag)
  }

  /** `<[^>]+>` at the start of `s`: '<', at least one other character, then the first '>'. */
  function TagEnd(s: string): (r: Option<nat>)
    ensures r.Some? ==> 2 < r.value <= |s| && s[0] == '<' && s[1] != '>'
    ensures r.None? && |s| >= 2 && s[0] == '<' && s[1] != '>' ==> '>' !in s[2..]
  {
    if |s| >= 2 && s[0] == '<' && s[1] != '>' then
      match IndexOf(s, ">", 2)
      case Some(j) => Some(j + 1)
      case None =>
        assert forall k :: 2 <= k < |s| ==> s[k..k + 1] == [s[k]] && !OccursAt(s, ">", k);
        None
    else None
  }

  /**
   * `.replace(/<[^>]+>/g, '')`. What survives keeps its order and never holds a tag: a '<' that
   * is left is followed directly by '>', or by no '>' at all.
   */
  function StripTags(s: string): (r: string)
    ensures forall c :: c in r ==> c in s
    ensures |s| > 0 && s[0] != '<' ==> |r| > 0 && r[0] == s[0]
    ensures forall i :: 0 <= i < |r| && r[i] == '<' ==> (i + 1 < |r| && r[i + 1] == '>') || '>' !in r[i + 1..]
    decreases |s|
  {
    if s == [] then []
    else
      match TagEnd(s)
      case Some(e) => StripTags(s[e..])
      case None =>
        var rest := StripTags(s[1..]);
        assert s[0] == '<' && |s| >= 2 && s[1] != '>' ==> '>' !in rest by {
          if s[0] == '<' && |s| >= 2 && s[1] != '>' {
            assert s[1..] == [s[1]] + s[2..];
          }
        }
        assert ([s[0]] + rest)[1..] == rest;
        [s[0]] + rest
  }

  /** The five entities, decoded one after another in this order. */
  function DecodeEntities(s: string): string
  {
    var a := ReplaceAll(s, "&nbsp;", " ");
    var b := ReplaceAll(a, "&quot;", "\"");
    var c := ReplaceAll(b, "&amp;", "&");
    var d := ReplaceAll(c, "&lt;", "<");
    ReplaceAll(d, "&gt;", ">")
  }

  /** `.replace(/\s+/g, ' ')`: every run of white space becomes one space. */
  function Collapse(s: string): (r: string)
    ensures |r| > 0 ==> |s| > 0 && (IsSpace(r[0]) <==> IsSpace(s[0]))
    ensures forall i :: 0 <= i < |r| && IsSpace(r[i]) ==> r[i] == ' '
    ensures NoDoubleSpace(r)
    decreases |s|
  {
    if s == [] then []
    else if IsSpace(s[0]) then
      var rest := Collapse(TrimStart(s[1..]));
      [' '] + rest
    else
      [s[0]] + Collapse(s[1..])
  }

  function TrimEnd(s: string): (r: string)
    ensures |r| <= |s| && r == s[..|r|]
    ensures |r| > 0 ==> !IsSpace(r[|r| - 1])
  {
    if s != [] && IsSpace(s[|s| - 1]) then TrimEnd(s[..|s| - 1]) else s
  }

  /** `.trim()`. */
  function Trim(s: string): (r: string)
    ensures |r| > 0 ==> !IsSpace(r[0]) && !IsSpace(r[|r| - 1])
    ensures |r| <= |TrimStart(s)| <= |s| && r == s[|s| - |TrimStart(s)|..|s| - |TrimStart(s)| + |r|]
  {
    var t := TrimStart(s);
    var r := TrimEnd(t);
    PrefixOfSuffix(s, |s| - |t|, |r|);
    r
  }

  lemma PrefixOfSuffix(s: string, k: nat, m: nat)
    requires k + m <= |s|
    ensures s[k..][..m] == s[k..k + m]
  {
  }

  /** `htmlToPlainText`: the eight replacements in their source order, then `trim`. */
  function HtmlToPlainText(html: string): string
  {
    Trim(Collapse(DecodeEntities(StripTags(RemoveBlocks(RemoveBlocks(html, "style"), "script")))))
  }

  /** Never two white-space characters in a row. */
  ghost predicate NoDoubleSpace(r: string)
  {
    forall i, j :: 0 <= i < j < |r| && j == i + 1 ==> !(IsSpace(r[i]) && IsSpace(r[j]))
  }

  /** No white space at either end and never two white-space characters in a row. */
  ghost predicate Tidy(r: string)
  {
    (|r| > 0 ==> !IsSpace(r[0]) && !IsSpace(r[|r| - 1])) && NoDoubleSpace(r)
  }

  lemma SliceNoDoubleSpace(c: string, a: nat, b: nat)
    requires a <= b <= |c| && NoDoubleSpace(c)
    ensures NoDoubleSpace(c[a..b])
  {
    var r := c[a..b];
    forall i, j | 0 <= i < j < |r| && j == i + 1
      ensures !(IsSpace(r[i]) && IsSpace(r[j]))
    {
      assert r[i] == c[a + i] && r[j] == c[a + j];
    }
  }

  /** Collapsing and trimming leave tidy text, whatever went in. */
  lemma CollapsedTrimmedTidy(s: string)
    ensures Tidy(Trim(Collapse(s)))
  {
    var c := Collapse(s);
    var a := |c| - |TrimStart(c)|;
    SliceNoDoubleSpace(c, a, a + |Trim(c)|);
  }

  /** The plain text is always tidy. */
  lemma PlainTextTidy(html: string)
    ensures Tidy(HtmlToPlainText(html))
  {
    CollapsedTrimmedTidy(DecodeEntities(StripTags(RemoveBlocks(RemoveBlocks(html, "style"), "script"))));
  }

  lemma {:induction false} RemoveBlocksPlain(s: string, tag: string)
    requires '<' !in s
    ensures RemoveBlocks(s, tag) == s
    decreases |s|
  {
    if s != [] {
      RemoveBlocksPlain(s[1..], tag);
    }
  }

  lemma {:induction false} StripTagsPlain(s: string)
    requires '<' !in s
    ensures StripTags(s) == s
    decreases |s|
  {
    if s != [] {
      StripTagsPlain(s[1..]);
    }
  }

  /** Without '<' the markup passes change nothing, and only the entities are decoded. */
  lemma NoMarkupOnlyDecoded(s: string)
    requires '<' !in s
    ensures HtmlToPlainText(s) == Trim(Collapse(DecodeEntities(s)))
  {
    RemoveBlocksPlain(s, "style");
    RemoveBlocksPlain(s, "script");
    StripTagsPlain(s);
  }

  /** Text with neither '<' nor '&' is only collapsed and trimmed. */
  lemma PlainInputOnlyTidied(s: string)
    requires '<' !in s && '&' !in s
    ensures HtmlToPlainText(s) == Trim(Collapse(s))
  {
    NoMarkupOnlyDecoded(s);
    ReplaceAllAbsent(s, "&nbsp;", " ");
    ReplaceAllAbsent(s, "&quot;", "\"");
    ReplaceAllAbsent(s, "&amp;", "&");
    ReplaceAllAbsent(s, "&lt;", "<");
    ReplaceAllAbsent(s, "&gt;", ">");
  }

  /** Text before the first '<' is copied as it is. */
  lemma {:induction false} RemoveBlocksPrefix(before: string, rest: string, tag: string)
    requires '<' !in before
    ensures RemoveBlocks(before + rest, tag) == before + RemoveBlocks(rest, tag)
    decreases |before|
  {
    if before != [] {
      var s := before + rest;
      assert s[0] == before[0] && s[0] != '<';
      assert s[1..] == before[1..] + rest;
      assert RemoveBlocks(s, tag) == [s[0]] + RemoveBlocks(s[1..], tag);
      RemoveBlocksPrefix(before[1..], rest, tag);
      assert [before[0]] + (before[1..] + RemoveBlocks(rest, tag)) == before + RemoveBlocks(rest, tag) by {
        assert [before[0]] + before[1..] == before;
      }
    } else {
      assert before + rest == rest;
    }
  }

  /** A style block is removed with everything inside it, and only that block. */
  lemma StyleBlockRemoved(before: string, css: string, after: string)
    requires '<' !in before && '<' !in css
    ensures RemoveBlocks(before + "<style>" + css + "</style>" + after, "style") == before + RemoveBlocks(after, "style")
  {
    var block := "<style>" + css + "</style>" + after;
    assert before + "<style>" + css + "</style>" + after == before + block;
    RemoveBlocksPrefix(before, block, "style");
    StyleBlockEnd(css, after);
    assert block[|css| + 15..] == after;
  }

  /** The block that opens a string ends right after the first closing tag. */
  lemma StyleBlockEnd(css: string, after: string)
    requires '<' !in css
    ensures BlockEnd("<style>" + css + "</style>" + after, "style") == Some(|css| + 15)
  {
    var block := "<style>" + css + "</style>" + after;
    var close := "</" + "style" + ">";
    var m := 7 + |css|;
    assert "<" + "style" == "<style" && close == "</style>";
    assert CiOccursAt(block, "<style", 0) by {
      forall k | 0 <= k < 6
        ensures Lower(block[k]) == "<style"[k]
      {
        assert block[k] == "<style"[k];
      }
    }
    assert block[6..7] == ">";
    assert IndexOf(block, ">", 6) == Some(6);
    assert CiOccursAt(block, close, m) by {
      forall k | 0 <= k < 8
        ensures Lower(block[m + k]) == close[k]
      {
        assert block[m + k] == "</style>"[k];
      }
    }
    forall j | 7 <= j < m
      ensures !CiOccursAt(block, close, j)
    {
      assert block[j + 0] == css[j - 7];
      LowerOfLt(block[j]);
      assert close[0] == '<';
    }
    CiIndexOfAt(block, close, 7, m);
  }

  lemma LowerOfLt(c: char)
    ensures Lower(c) == '<' <==> c == '<'
  {
  }

  /** The first occurrence from `from` is at `m` when there is one at `m` and none before. */
  lemma {:induction false} CiIndexOfAt(s: string, pat: string, from: nat, m: nat)
    requires from <= m && CiOccursAt(s, pat, m)
    requires forall j :: from <= j < m ==> !CiOccursAt(s, pat, j)
    ensures CiIndexOf(s, pat, from) == Some(m)
    decreases m - from
  {
    if from < m {
      CiIndexOfAt(s, pat, from + 1, m);
    }
  }

  predicate NoSpace(x: string)
  {
    forall i :: 0 <= i < |x| ==> !IsSpace(x[i])
  }

  lemma NoSpaceAppend(a: string, b: string)
    requires NoSpace(a) && NoSpace(b)
    ensures NoSpace(a + b)
  {
    forall i | 0 <= i < |a + b|
      ensures !IsSpace((a + b)[i])
    {
      if i < |a| {
        assert (a + b)[i] == a[i];
      } else {
        assert (a + b)[i] == b[i - |a|];
      }
    }
  }

  /** Text that holds no white space, no '&' and no '<': a word that every pass leaves alone. */
  predicate Word(x: string)
  {
    NoSpace(x) && '&' !in x && '<' !in x
  }

  /** Tags go before entities: an escaped tag survives as a literal tag. */
  lemma EscapedTagSurvives(x: string)
    requires Word(x)
    ensures HtmlToPlainText("&lt;" + x + "&gt;") == "<" + x + ">"
  {
    var s := "&lt;" + x + "&gt;";
    assert '<' !in s;
    NoMarkupOnlyDecoded(s);
    DecodeEscapedTag(x);
    NoSpaceAppend("<", x);
    NoSpaceAppend("<" + x, ">");
    Unchanged("<" + x + ">");
  }

  lemma DecodeEscapedTag(x: string)
    requires Word(x)
    ensures DecodeEntities("&lt;" + x + "&gt;") == "<" + x + ">"
  {
    var s := "&lt;" + x + "&gt;";
    EscapedTagOther(x, "&nbsp;", " ");
    EscapedTagOther(x, "&quot;", "\"");
    EscapedTagOther(x, "&amp;", "&");
    EscapedTagLt(x);
    EscapedTagGt(x);
  }

  /** An entity other than "&lt;" and "&gt;" occurs nowhere in the escaped tag. */
  lemma EscapedTagOther(x: string, pat: string, rep: string)
    requires Word(x) && |pat| >= 2 && pat[0] == '&' && pat[1] != 'l' && pat[1] != 'g'
    ensures ReplaceAll("&lt;" + x + "&gt;", pat, rep) == "&lt;" + x + "&gt;"
  {
    assert "&lt;" + x + "&gt;" == "&lt;" + (x + "&gt;");
    SkipEntity("&lt;", x + "&gt;", pat, rep);
    ReplaceAllPlainPrefix(x, "&gt;", pat, rep);
    SkipEntity("&gt;", "", pat, rep);
    assert "&gt;" + "" == "&gt;";
  }

  lemma EscapedTagLt(x: string)
    requires Word(x)
    ensures ReplaceAll("&lt;" + x + "&gt;", "&lt;", "<") == "<" + x + "&gt;"
  {
    assert "&lt;" + x + "&gt;" == "&lt;" + (x + "&gt;");
    ReplaceAllFront("&lt;", x + "&gt;", "<");
    ReplaceAllPlainPrefix(x, "&gt;", "&lt;", "<");
    SkipEntity("&gt;", "", "&lt;", "<");
    assert "&gt;" + "" == "&gt;";
  }

  lemma EscapedTagGt(x: string)
    requires Word(x)
    ensures ReplaceAll("<" + x + "&gt;", "&gt;", ">") == "<" + x + ">"
  {
    ReplaceAllPlainPrefix("<" + x, "&gt;", "&gt;", ">");
    ReplaceAllFront("&gt;", "", ">");
    assert "&gt;" + "" == "&gt;";
  }

  /** "&amp;" is decoded before "&lt;", so a double-escaped '<' is decoded twice. */
  lemma DoubleEscapeDecodedTwice(x: string)
    requires Word(x)
    ensures HtmlToPlainText("&amp;lt;" + x) == "<" + x
  {
    var s := "&amp;lt;" + x;
    assert '<' !in s;
    NoMarkupOnlyDecoded(s);
    DecodeDoubleEscape(x);
    NoSpaceAppend("<", x);
    Unchanged("<" + x);
  }

  lemma DecodeDoubleEscape(x: string)
    requires Word(x)
    ensures DecodeEntities("&amp;lt;" + x) == "<" + x
  {
    var s := "&amp;lt;" + x;
    SkipEntity("&amp;lt;", x, "&nbsp;", " ");
    SkipEntity("&amp;lt;", x, "&quot;", "\"");
    ReplaceAllAbsent(x, "&nbsp;", " ");
    ReplaceAllAbsent(x, "&quot;", "\"");
    DoubleEscapeAmp(x);
    ReplaceAllFront("&lt;", x, "<");
    ReplaceAllAbsent(x, "&lt;", "<");
    ReplaceAllAbsent("<" + x, "&gt;", ">");
  }

  lemma DoubleEscapeAmp(x: string)
    requires Word(x)
    ensures ReplaceAll("&amp;lt;" + x, "&amp;", "&") == "&lt;" + x
  {
    assert "&amp;lt;" + x == "&amp;" + ("lt;" + x);
    ReplaceAllFront("&amp;", "lt;" + x, "&");
    ReplaceAllAbsent("lt;" + x, "&amp;", "&");
  }

  /** An entity that does not start the text is stepped over, character by character. */
  lemma SkipEntity(e: string, t: string, pat: string, rep: string)
    requires |e| >= 2 && |pat| >= 2 && e[0] == pat[0] && e[1] != pat[1] && pat[0] !in e[1..]
    ensures ReplaceAll(e + t, pat, rep) == e + ReplaceAll(t, pat, rep)
  {
    var s := e + t;
    if |s| >= |pat| {
      assert s[..|pat|][1] != pat[1];
      assert s[1..] == e[1..] + t;
      ReplaceAllPlainPrefix(e[1..], t, pat, rep);
      assert e == [e[0]] + e[1..];
    }
  }

  /** A non-breaking space entity becomes a space and merges with the space after it. */
  lemma NbspMerges(x: string, y: string)
    requires Word(x) && Word(y) && |x| > 0 && |y| > 0
    ensures HtmlToPlainText(x + "&nbsp; " + y) == x + " " + y
  {
    var s := x + "&nbsp; " + y;
    assert '<' !in s;
    NoMarkupOnlyDecoded(s);
    DecodeNbsp(x, y);
    CollapseRun(x, y);
    var r := x + " " + y;
    assert r[0] == x[0] && r[|r| - 1] == y[|y| - 1];
    TrimUnchanged(r);
  }

  lemma DecodeNbsp(x: string, y: string)
    requires Word(x) && Word(y)
    ensures DecodeEntities(x + "&nbsp; " + y) == x + "  " + y
  {
    assert x + "&nbsp; " + y == x + ("&nbsp;" + (" " + y));
    ReplaceAllPlainPrefix(x, "&nbsp;" + (" " + y), "&nbsp;", " ");
    ReplaceAllFront("&nbsp;", " " + y, " ");
    ReplaceAllAbsent(" " + y, "&nbsp;", " ");
    var d := x + "  " + y;
    assert x + (" " + (" " + y)) == d;
    assert '&' !in d;
    ReplaceAllAbsent(d, "&quot;", "\"");
    ReplaceAllAbsent(d, "&amp;", "&");
    ReplaceAllAbsent(d, "&lt;", "<");
    ReplaceAllAbsent(d, "&gt;", ">");
  }

  /** Two spaces between two words collapse to one. */
  lemma CollapseRun(x: string, y: string)
    requires Word(x) && Word(y) && |y| > 0
    ensures Collapse(x + "  " + y) == x + " " + y
  {
    assert x + "  " + y == x + ("  " + y);
    WordCollapse(x, "  " + y);
    CollapseSpaces(y);
  }

  lemma CollapseSpaces(y: string)
    requires NoSpace(y) && |y| > 0
    ensures Collapse("  " + y) == " " + y
  {
    var t := "  " + y;
    assert t[0] == ' ' && t[1..] == " " + y;
    SpaceTrimmed(y);
    WordCollapse(y, "");
    assert y + "" == y;
  }

  lemma SpaceTrimmed(y: string)
    requires NoSpace(y) && |y| > 0
    ensures TrimStart(" " + y) == y
  {
    assert (" " + y)[1..] == y;
    assert !IsSpace(y[0]);
  }

  /** Characters other than white space are copied by the collapsing pass. */
  lemma {:induction false} WordCollapse(x: string, t: string)
    requires NoSpace(x)
    ensures Collapse(x + t) == x + Collapse(t)
    decreases |x|
  {
    if x == [] {
      assert x + t == t;
    } else {
      var s := x + t;
      assert s[0] == x[0] && s[1..] == x[1..] + t;
      assert !IsSpace(x[0]);
      assert NoSpace(x[1..]) by {
        forall i | 0 <= i < |x| - 1
          ensures !IsSpace(x[1..][i])
        {
          assert x[1..][i] == x[i + 1];
        }
      }
      WordCollapse(x[1..], t);
      assert x == [x[0]] + x[1..];
    }
  }

  /** Text without white space at either end is not trimmed. */
  lemma TrimUnchanged(r: string)
    requires |r| > 0 ==> !IsSpace(r[0]) && !IsSpace(r[|r| - 1])
    ensures Trim(r) == r
  {
  }

  /** A word is left as it is by collapsing and trimming. */
  lemma Unchanged(x: string)
    requires NoSpace(x)
    ensures Trim(Collapse(x)) == x
  {
    WordCollapse(x, "");
    assert x + "" == x;
    TrimUnchanged(x);
  }

  // ---- createBulletList ----

  const EntryOpen: string :=
    "\n    <li style=\"margin-bottom: 12px; "
      + "padding-left: 25px; position: relative;\">\n"
      + "      <span style=\"position: absolute; "
      + "left: 0; color: #FF6B35; font-size: "
      + "16px;\">"
  const EntryMiddle: string := "</span>\n      "
  const EntryClose: string := "\n    </li>\n  "

  /** One list entry of `createBulletList`. */
  function Entry(item: string, icon: string): string
  {
    EntryOpen + icon + EntryMiddle + item + EntryClose
  }

  /** `join('')`: the parts one after another. */
  function Join(parts: seq<string>): string
  {
    if parts == [] then "" else Join(parts[..|parts| - 1]) + parts[|parts| - 1]
  }

  /** `items.map(...)`: one entry per item, in the items' order. */
  function Entries(items: seq<string>, icon: string): (r: seq<string>)
    ensures |r| == |items|
    ensures forall k :: 0 <= k < |items| ==> r[k] == Entry(items[k], icon)
  {
    seq(|items|, k requires 0 <= k < |items| => Entry(items[k], icon))
  }

  const ListOpen: string := "<ul style=\"margin: 0; padding-left: 0; list-style: none;\">"

  /** `createBulletList`; the icon defaults to '⭐' only when it is not passed. */
  function BulletList(items: seq<string>, icon: Option<string>): string
  {
    ListOpen + Join(Entries(items, if icon.Some? then icon.value else "⭐")) + "</ul>"
  }

  lemma {:induction false} JoinAppend(a: seq<string>, b: seq<string>)
    ensures Join(a + b) == Join(a) + Join(b)
    decreases |b|
  {
    if b == [] {
      assert a + b == a;
    } else {
      var c := a + b;
      assert c[..|c| - 1] == a + b[..|b| - 1];
      assert c[|c| - 1] == b[|b| - 1];
      JoinAppend(a, b[..|b| - 1]);
    }
  }

  /** Part k sits between the join of the parts before it and the join of those after it. */
  lemma JoinSplit(parts: seq<string>, k: nat)
    requires k < |parts|
    ensures Join(parts) == Join(parts[..k]) + parts[k] + Join(parts[k + 1..])
  {
    var p := parts[..k + 1];
    assert parts == p + parts[k + 1..];
    JoinAppend(p, parts[k + 1..]);
    assert p[..|p| - 1] == parts[..k];
  }

  /**
   * The list keeps the items' order: item k's entry, with the chosen icon, sits between the
   * entries of the items before it and those after it.
   */
  lemma BulletListOrder(items: seq<string>, k: nat, icon: Option<string>)
    requires k < |items|
    ensures var ic := if icon.Some? then icon.value else "⭐";
      BulletList(items, icon)
        == ListOpen + (Join(Entries(items[..k], ic)) + Entry(items[k], ic) + Join(Entries(items[k + 1..], ic))) + "</ul>"
  {
    var ic := if icon.Some? then icon.value else "⭐";
    var es := Entries(items, ic);
    JoinSplit(es, k);
    EntriesPrefix(items, ic, k);
    EntriesSuffix(items, ic, k + 1);
  }

  /** The entries of the first k items are the first k entries. */
  lemma EntriesPrefix(items: seq<string>, icon: string, k: nat)
    requires k <= |items|
    ensures Entries(items, icon)[..k] == Entries(items[..k], icon)
  {
  }

  /** The entries of the items from k on are the entries from k on. */
  lemma EntriesSuffix(items: seq<string>, icon: string, k: nat)
    requires k <= |items|
    ensures Entries(items, icon)[k..] == Entries(items[k..], icon)
  {
  }

  /** The list's length: one entry's frame per item, plus the items' and the icons' text. */
  lemma {:induction false} JoinLength(parts: seq<string>, items: seq<string>, icon: string)
    requires parts == Entries(items, icon)
    ensures |Join(parts)| == |items| * (|Entry("", icon)|) + SumLengths(items)
    decreases |items|
  {
    if items != [] {
      var n := |items| - 1;
      assert parts[..n] == Entries(items[..n], icon);
      JoinLength(parts[..n], items[..n], icon);
    }
  }

  function SumLengths(items: seq<string>): nat
  {
    if items == [] then 0 else SumLengths(items[..|items| - 1]) + |items[|items| - 1]|
  }

  // ---- createHeader ----

  /** `styles`: a colour that is not given falls back to the default palette. */
  datatype EmailStyles = EmailStyles(primaryColor: Option<string>, secondaryColor: Option<string>, accentColor: Option<string>)

  function Pick(given: Option<string>, fallback: string): string
  {
    if given.Some? then given.value else fallback
  }

  const HeaderGradient: string := "\n    <div style=\"background: linear-gradient(135deg, "
  const HeaderBox: string :=
    " 50%, #8E24AA 100%);\n"
      + "                color: white; padding: "
      + "30px; border-radius: 15px; text-align: "
      + "center; position: relative; overflow: "
      + "hidden;\">\n"
      + "      <div style=\"position: absolute; "
      + "top: -50px; right: -50px; width: "
      + "100px; height: 100px;\n"
      + "                  background: rgba(255,255,2"
      + "55,0.1); border-radius: 50%;\"></div>\n"
      + "      <div style=\"position: absolute; "
      + "bottom: -30px; left: -30px; width: "
      + "60px; height: 60px;\n"
      + "                  background: rgba(255,255,2"
      + "55,0.1); border-radius: 50%;\"></div>\n"
      + "      <h1 style=\"margin: 0; font-size: "
      + "32px; margin-bottom: "

  /** Everything before the title's bottom margin: the gradient in the two main colours. */
  function HeaderHead(st: EmailStyles): string
  {
    HeaderGradient + Pick(st.primaryColor, "#4A148C") + " 0%, " + Pick(st.secondaryColor, "#7B1FA2") + HeaderBox
  }

  function HeaderTitle(title: string): string
  {
    ";\">" + title + "</h1>\n      "
  }

  const HeaderEnd: string := "\n    </div>\n  "

  function Subtitle(subtitle: string): string
  {
    "<p style=\"margin: 0; font-size: 18px; opacity: 0.9;\">" + subtitle + "</p>"
  }

  /** `createHeader`: the subtitle margin and paragraph only for a non-empty subtitle. */
  function Header(title: string, subtitle: Option<string>, st: EmailStyles): string
  {
    HeaderHead(st) + (if Truthy(subtitle) then "10px" else "0") + HeaderTitle(title)
    + (if Truthy(subtitle) then Subtitle(subtitle.value) else "") + HeaderEnd
  }

  /** `without` with its character at p replaced by "10px", and `sub` inserted before the closing tags. */
  function WithSubtitleAt(without: string, p: nat, sub: string): string
    requires p + 1 <= |without| - |HeaderEnd|
  {
    without[..p] + "10px" + without[p + 1..|without| - |HeaderEnd|] + sub + HeaderEnd
  }

  /**
   * A subtitle changes exactly two places of the header: the title's bottom margin becomes
   * "10px" instead of "0", and the paragraph appears before the closing tag. An empty subtitle
   * counts as none.
   */
  lemma HeaderSubtitleDelta(title: string, sub: string, st: EmailStyles)
    requires sub != ""
    ensures var without := Header(title, None, st);
      var p := |HeaderHead(st)|;
      p + 1 <= |without| - |HeaderEnd| && Header(title, Some(sub), st) == WithSubtitleAt(without, p, Subtitle(sub))
    ensures Header(title, Some(""), st) == Header(title, None, st)
  {
    HeaderWithout(title, st);
    HeaderWith(title, sub, st);
    Splice(HeaderHead(st), HeaderTitle(title), Subtitle(sub));
    HeaderEmptySubtitle(title, st);
  }

  lemma HeaderWithout(title: string, st: EmailStyles)
    ensures Header(title, None, st) == HeaderHead(st) + "0" + HeaderTitle(title) + HeaderEnd
  {
    var h, t := HeaderHead(st), HeaderTitle(title);
    assert h + "0" + t + "" == h + "0" + t;
  }

  lemma HeaderWith(title: string, sub: string, st: EmailStyles)
    requires sub != ""
    ensures Header(title, Some(sub), st) == HeaderHead(st) + "10px" + HeaderTitle(title) + Subtitle(sub) + HeaderEnd
  {
  }

  lemma HeaderEmptySubtitle(title: string, st: EmailStyles)
    ensures Header(title, Some(""), st) == Header(title, None, st)
  {
    assert !Truthy(Some(""));
  }

  lemma Splice(h: string, t: string, sub: string)
    ensures var without := h + "0" + t + HeaderEnd;
      |h| + 1 <= |without| - |HeaderEnd| && h + "10px" + t + sub + HeaderEnd == WithSubtitleAt(without, |h|, sub)
  {
    var without := h + "0" + t + HeaderEnd;
    assert without[..|h|] == h;
    assert without[|h| + 1..|without| - |HeaderEnd|] == t;
  }

  // ---- createFooter ----

  /** `${DEFAULT_BASE_URL}/<page>?email=${encodeURIComponent(email)}&token=${token}`; the token is passed in as it is. */
  function FooterLink(baseUrl: Option<string>, kind: EmailPreferences.LinkKind, email: string, token: string): string
  {
    EmailPreferences.LinkPrefix(EmailPreferences.BaseUrl(baseUrl), kind) + EmailPreferences.EncodeUriComponent(email)
    + "&token=" + token
  }

  const FooterOpen: string :=
    "\n    <div style=\"margin-top: 40px; "
      + "padding-top: 20px; border-top: 1px "
      + "solid #e0e0e0;\n"
      + "                font-size: 12px; "
      + "color: #666; text-align: center;\">\n"
      + "      <p>You received this email "
      + "because you subscribed to our notifications."
      + "</p>\n      <p>\n"
      + "        <a href=\""
  const FooterBetween: string :=
    "\"\n           style=\"color: #667eea; "
      + "text-decoration: none;\">Manage subscription<"
      + "/a> |\n        <a href=\""
  const FooterClose: string :=
    "\"\n           style=\"color: #667eea; "
      + "text-decoration: none;\">Unsubscribe "
      + "from all emails</a>\n"
      + "      </p>\n"
      + "      <p style=\"margin-top: 15px;\">\n"
      + "        © 2025 AstroForYou. All "
      + "rights reserved.<br>\n"
      + "        If you have any questions, "
      + "contact us.\n"
      + "      </p>\n"
      + "    </div>\n"
      + "  "

  /** `createFooter`: the preferences link, then the unsubscribe link. */
  function CreateFooter(email: string, token: string, baseUrl: Option<string>): string
  {
    FooterOpen + FooterLink(baseUrl, EmailPreferences.ManagePreferences, email, token) + FooterBetween
    + FooterLink(baseUrl, EmailPreferences.UnsubscribeAll, email, token) + FooterClose
  }

  /**
   * Each footer link parses back: after "?email=", the first '&' ends the encoded address,
   * and the token parameter follows it unchanged.
   */
  lemma FooterLinkParses(baseUrl: Option<string>, kind: EmailPreferences.LinkKind, email: string, token: string)
    ensures EmailPreferences.QueryParsesAt(FooterLink(baseUrl, kind, email, token),
      |EmailPreferences.LinkPrefix(EmailPreferences.BaseUrl(baseUrl), kind)|,
      EmailPreferences.EncodeUriComponent(email), "&token=" + token)
  {
    var prefix := EmailPreferences.LinkPrefix(EmailPreferences.BaseUrl(baseUrl), kind);
    var e := EmailPreferences.EncodeUriComponent(email);
    var rest := "&token=" + token;
    FooterLinkShape(baseUrl, kind, email, token);
    EmailPreferences.EncodedHasNoSeparator(email);
    EmailPreferences.FirstSeparator(FooterLink(baseUrl, kind, email, token), prefix, e, rest);
  }

  lemma FooterLinkShape(baseUrl: Option<string>, kind: EmailPreferences.LinkKind, email: string, token: string)
    ensures FooterLink(baseUrl, kind, email, token)
      == EmailPreferences.LinkPrefix(EmailPreferences.BaseUrl(baseUrl), kind) + EmailPreferences.EncodeUriComponent(email)
         + ("&token=" + token)
    ensures ("&token=" + token)[0] == '&'
  {
  }
}
