/** XML character escaping and the single-element builder used for every
    element of an Annex IV document (src/helpers/xml-utils.ts). */
module XmlUtils {
  import opened Wrappers
  import opened Text

  // ---------------------------------------------------------------------------
  // Escaping
  // ---------------------------------------------------------------------------

  /** The five characters XML reserves. */
  predicate IsSpecial(c: char)
  {
    c == '&' || c == '<' || c == '>' || c == '"' || c == '\''
  }

  predicate HasNoSpecial(s: string)
  {
    forall i :: 0 <= i < |s| ==> !IsSpecial(s[i])
  }

  /** `s.replace(/c/g, by)`: every occurrence of the character c replaced by `by`. */
  function ReplaceAll(s: string, c: char, entity: string): (r: string)
    decreases |s|
  {
    if |s| == 0 then ""
    else (if s[0] == c then entity else [s[0]]) + ReplaceAll(s[1..], c, entity)
  }

  /** The replacements of `escapeXml`, in the order they are applied: the
      ampersand first, so that no entity written by a later step is escaped again. */
  const Replacements: seq<(char, string)> :=
    [('&', "&amp;"), ('<', "&lt;"), ('>', "&gt;"), ('"', "&quot;"), ('\'', "&apos;")]

  /** Applies each replacement of rs in turn, as a chain of `.replace` calls. */
  function ReplaceEach(s: string, rs: seq<(char, string)>): string
    decreases |rs|
  {
    if |rs| == 0 then s else ReplaceEach(ReplaceAll(s, rs[0].0, rs[0].1), rs[1..])
  }

  /** `escapeXml`: the five global replacements, chained. */
  function EscapeXml(s: string): string
  {
    ReplaceEach(s, Replacements)
  }

  /** The entity a single character is written as. */
  function EscapeChar(c: char): (r: string)
    ensures |r| >= 1
    ensures !IsSpecial(c) <==> r == [c]
  {
    match c
    case '&' => "&amp;"
    case '<' => "&lt;"
    case '>' => "&gt;"
    case '"' => "&quot;"
    case '\'' => "&apos;"
    case _ => [c]
  }

  /** Reference definition: escape one character at a time, left to right. */
  function EscapeChars(s: string): (r: string)
    decreases |s|
  {
    if |s| == 0 then "" else EscapeChar(s[0]) + EscapeChars(s[1..])
  }

  // ----- replace() facts -------------------------------------------------------

  lemma {:induction false} ReplaceAllAppend(a: string, b: string, c: char, entity: string)
    ensures ReplaceAll(a + b, c, entity) == ReplaceAll(a, c, entity) + ReplaceAll(b, c, entity)
    decreases |a|
  {
    if |a| > 0 {
      assert (a + b)[1..] == a[1..] + b;
      ReplaceAllAppend(a[1..], b, c, entity);
    } else {
      assert a + b == b;
    }
  }

  lemma {:induction false} ReplaceAllAbsent(s: string, c: char, entity: string)
    requires c !in s
    ensures ReplaceAll(s, c, entity) == s
    decreases |s|
  {
    if |s| > 0 {
      assert s[1..] + [] == s[1..];
      assert c !in s[1..] by {
        forall i | 0 <= i < |s[1..]| ensures s[1..][i] != c {
          assert s[1..][i] == s[i + 1];
        }
      }
      ReplaceAllAbsent(s[1..], c, entity);
      assert [s[0]] + s[1..] == s;
    }
  }

  lemma ReplaceAllOneChar(x: char, c: char, entity: string)
    ensures ReplaceAll([x], c, entity) == if x == c then entity else [x]
  {
    assert [x][1..] == [];
    var head := if x == c then entity else [x];
    assert ReplaceAll([x], c, entity) == head + "";
    assert head + "" == head;
  }

  lemma {:induction false} ReplaceEachAppend(a: string, b: string, rs: seq<(char, string)>)
    ensures ReplaceEach(a + b, rs) == ReplaceEach(a, rs) + ReplaceEach(b, rs)
    decreases |rs|
  {
    if |rs| > 0 {
      ReplaceAllAppend(a, b, rs[0].0, rs[0].1);
      ReplaceEachAppend(ReplaceAll(a, rs[0].0, rs[0].1), ReplaceAll(b, rs[0].0, rs[0].1), rs[1..]);
    }
  }

  /** Replacements of characters that do not occur change nothing. */
  lemma {:induction false} ReplaceEachAbsent(s: string, rs: seq<(char, string)>)
    requires forall i :: 0 <= i < |rs| ==> rs[i].0 !in s
    ensures ReplaceEach(s, rs) == s
    decreases |rs|
  {
    if |rs| > 0 {
      ReplaceAllAbsent(s, rs[0].0, rs[0].1);
      assert forall i :: 0 <= i < |rs[1..]| ==> rs[1..][i].0 == rs[i + 1].0;
      ReplaceEachAbsent(s, rs[1..]);
    }
  }

  /** A character replaced by step k, whose replacement no later step touches,
      ends up as that replacement. */
  lemma {:induction false} ReplaceEachOneChar(x: char, rs: seq<(char, string)>, k: nat)
    requires k < |rs| && rs[k].0 == x
    requires forall i :: 0 <= i < k ==> rs[i].0 != x
    requires forall i :: k < i < |rs| ==> rs[i].0 !in rs[k].1
    ensures ReplaceEach([x], rs) == rs[k].1
    decreases k
  {
    ReplaceAllOneChar(x, rs[0].0, rs[0].1);
    if k == 0 {
      assert forall i :: 0 <= i < |rs[1..]| ==> rs[1..][i].0 == rs[i + 1].0;
      ReplaceEachAbsent(rs[0].1, rs[1..]);
    } else {
      assert forall i :: 0 <= i < |rs[1..]| ==> rs[1..][i] == rs[i + 1];
      ReplaceEachOneChar(x, rs[1..], k - 1);
    }
  }

  /** The chain of replacements acts on one character exactly as EscapeChar. */
  lemma EscapeXmlOneChar(x: char)
    ensures EscapeXml([x]) == EscapeChar(x)
  {
    var rs := Replacements;
    if x == '&' { ReplaceEachOneChar(x, rs, 0); }
    else if x == '<' { ReplaceEachOneChar(x, rs, 1); }
    else if x == '>' { ReplaceEachOneChar(x, rs, 2); }
    else if x == '"' { ReplaceEachOneChar(x, rs, 3); }
    else if x == '\'' { ReplaceEachOneChar(x, rs, 4); }
    else { ReplaceEachAbsent([x], rs); }
  }

  /** The chain of replacements distributes over concatenation. */
  lemma EscapeXmlAppendChain(a: string, b: string)
    ensures EscapeXml(a + b) == EscapeXml(a) + EscapeXml(b)
  {
    ReplaceEachAppend(a, b, Replacements);
  }

  /** Ampersand-first replacement is the same as escaping character by
      character: no entity introduced by one replacement is touched by a later one. */
  lemma {:induction false} EscapeXmlIsCharwise(s: string)
    ensures EscapeXml(s) == EscapeChars(s)
    decreases |s|
  {
    if |s| > 0 {
      assert s == [s[0]] + s[1..];
      EscapeXmlAppendChain([s[0]], s[1..]);
      EscapeXmlOneChar(s[0]);
      EscapeXmlIsCharwise(s[1..]);
    } else {
      assert EscapeXml(s) == "";
    }
  }

  // ----- properties of the character-wise form -----------------------------------

  lemma {:induction false} EscapeCharsAppend(a: string, b: string)
    ensures EscapeChars(a + b) == EscapeChars(a) + EscapeChars(b)
    decreases |a|
  {
    if |a| > 0 {
      assert (a + b)[1..] == a[1..] + b;
      EscapeCharsAppend(a[1..], b);
    } else {
      assert a + b == b;
    }
  }

  /** Escaping works piecewise: escape(a + b) == escape(a) + escape(b). */
  lemma EscapeXmlAppend(a: string, b: string)
    ensures EscapeXml(a + b) == EscapeXml(a) + EscapeXml(b)
  {
    EscapeXmlIsCharwise(a + b);
    EscapeXmlIsCharwise(a);
    EscapeXmlIsCharwise(b);
    EscapeCharsAppend(a, b);
  }

  lemma {:induction false} EscapeCharsLength(s: string)
    ensures |EscapeChars(s)| >= |s|
    ensures |EscapeChars(s)| == |s| <==> HasNoSpecial(s)
    ensures HasNoSpecial(s) ==> EscapeChars(s) == s
    decreases |s|
  {
    if |s| > 0 {
      EscapeCharsLength(s[1..]);
      if HasNoSpecial(s) {
        assert !IsSpecial(s[0]);
        assert HasNoSpecial(s[1..]) by {
          forall i | 0 <= i < |s[1..]| ensures !IsSpecial(s[1..][i]) {
            assert s[1..][i] == s[i + 1];
          }
        }
        assert [s[0]] + s[1..] == s;
      } else if !IsSpecial(s[0]) {
        assert !HasNoSpecial(s[1..]) by {
          var i :| 0 <= i < |s| && IsSpecial(s[i]);
          assert i > 0 && s[1..][i - 1] == s[i];
        }
      }
    }
  }

  /** Escaping never shortens a string, leaves it unchanged exactly when it has
      no reserved character, and so maps '' to ''. */
  lemma EscapeXmlLength(s: string)
    ensures |EscapeXml(s)| >= |s|
    ensures |EscapeXml(s)| == |s| <==> HasNoSpecial(s)
    ensures HasNoSpecial(s) ==> EscapeXml(s) == s
    ensures EscapeXml("") == ""
  {
    EscapeXmlIsCharwise(s);
    EscapeCharsLength(s);
    EscapeXmlIsCharwise("");
  }

  /** A character that may not appear raw in text content or attribute values. */
  predicate IsMarkupChar(c: char)
  {
    c == '<' || c == '>' || c == '"' || c == '\''
  }

  /** One of the five entities starts at position i of t. */
  predicate EntityAt(t: string, i: nat)
    requires i <= |t|
  {
    var rest := t[i..];
    "&amp;" <= rest || "&lt;" <= rest || "&gt;" <= rest || "&quot;" <= rest || "&apos;" <= rest
  }

  /** What escaped text looks like: no raw '<', '>', '"' or ''', and every '&'
      opens one of the five entities. */
  predicate IsEscapedText(t: string)
  {
    && (forall i :: 0 <= i < |t| ==> !IsMarkupChar(t[i]))
    && (forall i :: 0 <= i < |t| && t[i] == '&' ==> EntityAt(t, i))
  }

  lemma EntityAtExtends(e: string, rest: string, i: nat)
    requires i <= |rest|
    ensures EntityAt(e + rest, |e| + i) == EntityAt(rest, i)
  {
    assert (e + rest)[|e| + i..] == rest[i..];
  }

  /** Escaped text stays escaped when more escaped text follows it. */
  lemma EscapedTextConcat(a: string, b: string)
    requires IsEscapedText(a) && IsEscapedText(b)
    ensures IsEscapedText(a + b)
  {
    var t := a + b;
    forall i | 0 <= i < |t| ensures !IsMarkupChar(t[i]) {
      if i >= |a| {
        assert t[i] == b[i - |a|];
      }
    }
    forall i | 0 <= i < |t| && t[i] == '&' ensures EntityAt(t, i) {
      if i >= |a| {
        assert t[i] == b[i - |a|];
        EntityAtExtends(a, b, i - |a|);
      } else {
        assert t[i..] == a[i..] + b;
      }
    }
  }

  lemma EscapeCharIsEscapedText(c: char)
    ensures IsEscapedText(EscapeChar(c))
  {
    var e := EscapeChar(c);
    if IsSpecial(c) {
      assert e[0] == '&' && e[0..] == e;
      assert forall i :: 0 < i < |e| ==> e[i] != '&';
    }
  }

  lemma {:induction false} EscapeCharsIsEscapedText(s: string)
    ensures IsEscapedText(EscapeChars(s))
    decreases |s|
  {
    if |s| > 0 {
      EscapeCharsIsEscapedText(s[1..]);
      EscapeCharIsEscapedText(s[0]);
      EscapedTextConcat(EscapeChar(s[0]), EscapeChars(s[1..]));
    }
  }

  /** escapeXml's output never holds a raw '<', '>', '"' or ''', and each '&'
      in it begins an entity. */
  lemma EscapeXmlIsEscapedText(s: string)
    ensures IsEscapedText(EscapeXml(s))
  {
    EscapeXmlIsCharwise(s);
    EscapeCharsIsEscapedText(s);
  }

  // ----- the inverse ---------------------------------------------------------

  /** Decoding of the five entities, the inverse of escaping. */
  function Unescape(t: string): string
    decreases |t|
  {
    if |t| == 0 then ""
    else if "&amp;" <= t then "&" + Unescape(t[5..])
    else if "&lt;" <= t then "<" + Unescape(t[4..])
    else if "&gt;" <= t then ">" + Unescape(t[4..])
    else if "&quot;" <= t then "\"" + Unescape(t[6..])
    else if "&apos;" <= t then "'" + Unescape(t[6..])
    else [t[0]] + Unescape(t[1..])
  }

  /** Decoding the text that starts with the entity of a reserved character. */
  lemma UnescapeAfterSpecial(c: char, rest: string)
    requires IsSpecial(c)
    ensures Unescape(EscapeChar(c) + rest) == [c] + Unescape(rest)
  {
    var t := EscapeChar(c) + rest;
    if c == '&' {
      assert "&amp;" <= t && t[5..] == rest;
    } else if c == '<' {
      assert t[1] == 'l';
      assert t[4..] == rest;
    } else if c == '>' {
      assert t[1] == 'g';
      assert t[4..] == rest;
    } else if c == '"' {
      assert t[1] == 'q';
      assert t[6..] == rest;
    } else {
      assert t[1] == 'a' && t[2] == 'p';
      assert t[6..] == rest;
    }
  }

  lemma UnescapeAfterEntity(c: char, rest: string)
    ensures Unescape(EscapeChar(c) + rest) == [c] + Unescape(rest)
  {
    if IsSpecial(c) {
      UnescapeAfterSpecial(c, rest);
    } else {
      var t := [c] + rest;
      assert t[0] == c && t[1..] == rest;
    }
  }

  lemma {:induction false} UnescapeEscapeChars(s: string)
    ensures Unescape(EscapeChars(s)) == s
    decreases |s|
  {
    if |s| > 0 {
      UnescapeAfterEntity(s[0], EscapeChars(s[1..]));
      UnescapeEscapeChars(s[1..]);
      assert [s[0]] + s[1..] == s;
    }
  }

  /** Each character is escaped exactly once: decoding the entities gives back
      the original text, so no `&amp;amp;`-style double escaping can occur. */
  lemma UnescapeEscapeXml(s: string)
    ensures Unescape(EscapeXml(s)) == s
  {
    EscapeXmlIsCharwise(s);
    UnescapeEscapeChars(s);
  }

  /** Different texts stay different after escaping. */
  lemma EscapeXmlInjective(a: string, b: string)
    requires EscapeXml(a) == EscapeXml(b)
    ensures a == b
  {
    UnescapeEscapeXml(a);
    UnescapeEscapeXml(b);
  }

  // ---------------------------------------------------------------------------
  // The element builder
  // ---------------------------------------------------------------------------

  /** A non-null element value: `string | number | boolean` (numbers restricted
      to integers). */
  datatype Scalar = Str(s: string) | Num(n: int) | Bool(b: bool)

  /** `String(value)`. */
  function ScalarText(v: Scalar): string
  {
    match v
    case Str(s) => s
    case Num(n) => IntToString(n)
    case Bool(b) => if b then "true" else "false"
  }

  /** One attribute, `k="escape(v)"`; the key is not escaped. */
  function Attribute(kv: (string, string)): string
  {
    kv.0 + "=\"" + EscapeXml(kv.1) + "\""
  }

  /** The attribute string of an element: empty when no attribute record is
      supplied, otherwise a space followed by the attributes separated by spaces. */
  function AttrString(attrs: Option<seq<(string, string)>>): string
  {
    match attrs
    case None => ""
    case Some(kvs) => " " + Join(seq(|kvs|, i requires 0 <= i < |kvs| => Attribute(kvs[i])), " ")
  }

  /** `tag(name, value, attrs)`. */
  function Tag(name: string, value: Option<Scalar>, attrs: Option<seq<(string, string)>>): (r: string)
    ensures value.None? ==> r == "<" + name + "/>"
    ensures value.Some? ==> |r| > |name| + 3
  {
    if value.None? then "<" + name + "/>"
    else "<" + name + AttrString(attrs) + ">" + EscapeXml(ScalarText(value.value)) + "</" + name + ">"
  }

  /** A null value gives `<name/>` whatever attributes are passed. */
  lemma TagNullIgnoresAttributes(name: string, a: Option<seq<(string, string)>>, b: Option<seq<(string, string)>>)
    ensures Tag(name, None, a) == Tag(name, None, b) == "<" + name + "/>"
  {
  }

  /** Any present value, '' and 0 and false included, is rendered as an open and
      a close tag, never as the self-closing form. */
  lemma TagPresentIsNotSelfClosing(name: string, v: Scalar, attrs: Option<seq<(string, string)>>)
    ensures Tag(name, Some(v), attrs) != Tag(name, None, attrs)
  {
  }

  /** A rendered element holds its value escaped: between the opening tag and
      the closing tag lies escaped text that decodes to String(value). */
  lemma TagContentDecodes(name: string, v: Scalar, attrs: Option<seq<(string, string)>>)
    ensures var open, close := "<" + name + AttrString(attrs) + ">", "</" + name + ">";
      var r := Tag(name, Some(v), attrs);
      && |open| + |close| <= |r|
      && r[..|open|] == open
      && r[|r| - |close|..] == close
      && IsEscapedText(r[|open|..|r| - |close|])
      && Unescape(r[|open|..|r| - |close|]) == ScalarText(v)
  {
    var open, close := "<" + name + AttrString(attrs) + ">", "</" + name + ">";
    var content := EscapeXml(ScalarText(v));
    var r := open + content + close;
    assert Tag(name, Some(v), attrs) == r;
    assert r[..|open|] == open;
    assert r[|r| - |close|..] == close;
    assert r[|open|..|r| - |close|] == content;
    EscapeXmlIsEscapedText(ScalarText(v));
    UnescapeEscapeXml(ScalarText(v));
  }

  /** An attribute value is escaped on its own: it holds no raw quote that
      could end it early, and it decodes to the value given. */
  lemma AttributeDecodes(k: string, v: string)
    ensures var e := EscapeXml(v);
      && Attribute((k, v)) == k + "=\"" + e + "\""
      && '"' !in e
      && Unescape(e) == v
  {
    var e := EscapeXml(v);
    EscapeXmlIsEscapedText(v);
    UnescapeEscapeXml(v);
    assert forall i :: 0 <= i < |e| ==> e[i] != '"';
  }

  /** The attribute string starts with a space exactly when an attribute record
      is supplied, even an empty one. */
  lemma AttrStringLeadingSpace(attrs: Option<seq<(string, string)>>)
    ensures attrs.None? <==> AttrString(attrs) == ""
    ensures attrs.Some? ==> AttrString(attrs)[0] == ' '
  {
  }

  /** A text value without attributes: the escaped text between the two tags. */
  lemma TagText(name: string, t: string)
    ensures Tag(name, Some(Str(t)), None) == "<" + name + ">" + EscapeXml(t) + "</" + name + ">"
  {
    assert AttrString(None) == "";
    assert "<" + name + AttrString(None) == "<" + name;
  }

  /** Zero, the empty string and false are values, not nulls: each gives an
      open and a close tag around its text. */
  lemma TagZero(name: string)
    ensures Tag(name, Some(Num(0)), None) == "<" + name + ">0</" + name + ">"
  {
    var z := IntToString(0);
    assert z == "0";
    EscapeXmlLength(z);
  }

  lemma TagEmptyString(name: string)
    ensures Tag(name, Some(Str("")), None) == "<" + name + "></" + name + ">"
  {
    EscapeXmlLength("");
  }

  lemma TagFalse(name: string)
    ensures Tag(name, Some(Bool(false)), None) == "<" + name + ">false</" + name + ">"
  {
    var f := ScalarText(Bool(false));
    assert HasNoSpecial(f);
    EscapeXmlLength(f);
  }
}
