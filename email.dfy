/** Composition and dispatch of the contact e-mail: HTML escaping, the HTML and
    plain-text bodies, and the choice among the four result shapes of
    `sendContactEmail`. The transactional-mail client is a function parameter
    from the request it is given to its outcome; the timestamps the bodies
    print are a parameter too. */
module Email {
  import opened Wrappers
  import opened JsText

  // ---- escapeHtml ----

  /** The five characters the escape table rewrites. */
  predicate Special(c: char)
  {
    c == '&' || c == '<' || c == '>' || c == '"' || c == '\''
  }

  /** The characters that may not appear at all in escaped text. */
  predicate Unsafe(c: char)
  {
    c == '<' || c == '>' || c == '"' || c == '\''
  }

  /** The escape table, applied to one character. */
  function EscapeChar(c: char): (r: string)
    ensures Special(c) ==> |r| >= 4 && r[0] == '&'
    ensures !Special(c) ==> r == [c]
  {
    if c == '&' then "&amp;"
    else if c == '<' then "&lt;"
    else if c == '>' then "&gt;"
    else if c == '"' then "&quot;"
    else if c == '\'' then "&#39;"
    else [c]
  }

  /** `escapeHtml(text)`: every special character replaced by its entity. */
  function EscapeHtml(s: string): (r: string)
    ensures |r| >= |s|
  {
    if s == [] then [] else EscapeChar(s[0]) + EscapeHtml(s[1..])
  }

  predicate StartsWith(s: string, prefix: string)
  {
    |prefix| <= |s| && s[..|prefix|] == prefix
  }

  /** Position `i` of `s` starts one of the five entities. */
  predicate EntityAt(s: string, i: nat)
    requires i <= |s|
  {
    StartsWith(s[i..], "&amp;") || StartsWith(s[i..], "&lt;") || StartsWith(s[i..], "&gt;") ||
    StartsWith(s[i..], "&quot;") || StartsWith(s[i..], "&#39;")
  }

  /** Each of the five characters maps to its entity, any other to itself. */
  lemma EscapeTable()
    ensures EscapeHtml("&") == "&amp;" && EscapeHtml("<") == "&lt;" && EscapeHtml(">") == "&gt;"
    ensures EscapeHtml("\"") == "&quot;" && EscapeHtml("'") == "&#39;"
    ensures forall c :: !Special(c) ==> EscapeHtml([c]) == [c]
  {
    forall c | !Special(c) ensures EscapeHtml([c]) == [c] {
      assert [c][1..] == [];
    }
    assert "&"[1..] == [] && "<"[1..] == [] && ">"[1..] == [] && "\""[1..] == [] && "'"[1..] == [];
  }

  lemma {:induction false} EscapeHtmlAppend(a: string, b: string)
    ensures EscapeHtml(a + b) == EscapeHtml(a) + EscapeHtml(b)
  {
    if a == [] {
      assert a + b == b;
    } else {
      assert (a + b)[0] == a[0] && (a + b)[1..] == a[1..] + b;
      EscapeHtmlAppend(a[1..], b);
    }
  }

  /** Text without the five characters is left as it is. */
  lemma {:induction false} EscapeHtmlIdentity(s: string)
    requires forall i :: 0 <= i < |s| ==> !Special(s[i])
    ensures EscapeHtml(s) == s
  {
    if s != [] {
      EscapeHtmlIdentity(s[1..]);
    }
  }

  /** Escaped text contains none of `<`, `>`, `"`, `'`. */
  lemma {:induction false} EscapeHtmlNoUnsafe(s: string)
    ensures forall i :: 0 <= i < |EscapeHtml(s)| ==> !Unsafe(EscapeHtml(s)[i])
  {
    if s != [] {
      var h, t := EscapeChar(s[0]), EscapeHtml(s[1..]);
      EscapeHtmlNoUnsafe(s[1..]);
      forall i | 0 <= i < |h + t| ensures !Unsafe((h + t)[i]) {
        if i >= |h| {
          assert (h + t)[i] == t[i - |h|];
        }
      }
    }
  }

  /** In escaped text every `&` is the start of one of the five entities. */
  lemma {:induction false} EscapeHtmlAmpersands(s: string)
    ensures forall i :: 0 <= i < |EscapeHtml(s)| && EscapeHtml(s)[i] == '&' ==> EntityAt(EscapeHtml(s), i)
  {
    if s != [] {
      var h, t := EscapeChar(s[0]), EscapeHtml(s[1..]);
      var r := h + t;
      EscapeHtmlAmpersands(s[1..]);
      forall i | 0 <= i < |r| && r[i] == '&' ensures EntityAt(r, i) {
        if i >= |h| {
          assert r[i..] == t[i - |h|..];
        } else {
          assert r[..|h|] == h;
        }
      }
    }
  }

  /** Escaping is not idempotent: a second pass escapes the `&` of each entity. */
  lemma EscapeHtmlNotIdempotent()
    ensures EscapeHtml("&") == "&amp;"
    ensures EscapeHtml(EscapeHtml("&")) == "&amp;amp;"
  {
    EscapeTable();
    EscapeHtmlAppend("&", "amp;");
    assert "&amp;" == "&" + "amp;";
    EscapeHtmlIdentity("amp;");
  }

  /** Decoding of the five entities: the inverse of `EscapeHtml`. */
  function Unescape(s: string): string
    decreases |s|
  {
    if s == [] then []
    else if StartsWith(s, "&amp;") then "&" + Unescape(s[5..])
    else if StartsWith(s, "&lt;") then "<" + Unescape(s[4..])
    else if StartsWith(s, "&gt;") then ">" + Unescape(s[4..])
    else if StartsWith(s, "&quot;") then "\"" + Unescape(s[6..])
    else if StartsWith(s, "&#39;") then "'" + Unescape(s[5..])
    else [s[0]] + Unescape(s[1..])
  }

  lemma UnescapeAmp(rest: string)
    ensures Unescape("&amp;" + rest) == "&" + Unescape(rest)
  {
    var x := "&amp;" + rest;
    assert x[..5] == "&amp;" && x[5..] == rest;
  }

  lemma UnescapeLt(rest: string)
    ensures Unescape("&lt;" + rest) == "<" + Unescape(rest)
  {
    var x := "&lt;" + rest;
    assert x[..4] == "&lt;" && x[4..] == rest;
    assert x[1] == 'l';
  }

  lemma UnescapeGt(rest: string)
    ensures Unescape("&gt;" + rest) == ">" + Unescape(rest)
  {
    var x := "&gt;" + rest;
    assert x[..4] == "&gt;" && x[4..] == rest;
    assert x[1] == 'g';
  }

  lemma UnescapeQuot(rest: string)
    ensures Unescape("&quot;" + rest) == "\"" + Unescape(rest)
  {
    var x := "&quot;" + rest;
    assert x[..6] == "&quot;" && x[6..] == rest;
    assert x[1] == 'q';
  }

  lemma UnescapeApos(rest: string)
    ensures Unescape("&#39;" + rest) == "'" + Unescape(rest)
  {
    var x := "&#39;" + rest;
    assert x[..5] == "&#39;" && x[5..] == rest;
    assert x[1] == '#';
  }

  lemma UnescapeOrdinary(c: char, rest: string)
    requires c != '&'
    ensures Unescape([c] + rest) == [c] + Unescape(rest)
  {
    var x := [c] + rest;
    assert x[0] == c && x[1..] == rest;
    NoEntityAtStart(x, "&amp;");
    NoEntityAtStart(x, "&lt;");
    NoEntityAtStart(x, "&gt;");
    NoEntityAtStart(x, "&quot;");
    NoEntityAtStart(x, "&#39;");
  }

  /** Every entity begins with `&`, so a string that does not begins none. */
  lemma NoEntityAtStart(x: string, entity: string)
    requires x != [] && x[0] != '&' && entity != [] && entity[0] == '&'
    ensures !StartsWith(x, entity)
  {
  }

  /** Decoding an escaped character: the entity of a special character is
      recognised before any other, and an ordinary character stands for itself. */
  lemma UnescapeStep(c: char, rest: string)
    ensures Unescape(EscapeChar(c) + rest) == [c] + Unescape(rest)
  {
    if c == '&' {
      assert EscapeChar(c) == "&amp;";
      UnescapeAmp(rest);
    } else if c == '<' {
      assert EscapeChar(c) == "&lt;";
      UnescapeLt(rest);
    } else if c == '>' {
      assert EscapeChar(c) == "&gt;";
      UnescapeGt(rest);
    } else if c == '"' {
      assert EscapeChar(c) == "&quot;";
      UnescapeQuot(rest);
    } else if c == '\'' {
      assert EscapeChar(c) == "&#39;";
      UnescapeApos(rest);
    } else {
      UnescapeOrdinary(c, rest);
    }
  }

  /** Escaping loses nothing: the escaped text decodes back to the original, so
      distinct texts escape to distinct texts. */
  lemma {:induction false} EscapeRoundTrip(s: string)
    ensures Unescape(EscapeHtml(s)) == s
  {
    if s != [] {
      UnescapeStep(s[0], EscapeHtml(s[1..]));
      EscapeRoundTrip(s[1..]);
    }
  }

  // ---- The e-mail bodies ----

  /** `ContactEmailData`. */
  datatype ContactEmailData = ContactEmailData(name: string, email: string, subject: string, message: string)

  /** The interpolations of a template: the four fields and the "sent on" timestamp. */
  datatype Slot = NameSlot | EmailSlot | SubjectSlot | MessageSlot | SentOn

  datatype Piece = Lit(text: string) | Hole(slot: Slot)

  function FieldText(slot: Slot, d: ContactEmailData, sentOn: string): string
  {
    match slot
    case NameSlot => d.name
    case EmailSlot => d.email
    case SubjectSlot => d.subject
    case MessageSlot => d.message
    case SentOn => sentOn
  }

  /** One piece of a template evaluated: literal text as written, a field hole
      escaped when `escape` is set, the timestamp inserted as it is. */
  function PieceText(p: Piece, d: ContactEmailData, sentOn: string, escape: bool): string
  {
    match p
    case Lit(text) => text
    case Hole(SentOn) => sentOn
    case Hole(slot) => if escape then EscapeHtml(FieldText(slot, d, sentOn)) else FieldText(slot, d, sentOn)
  }

  /** A template literal evaluated piece by piece. */
  function Render(t: seq<Piece>, d: ContactEmailData, sentOn: string, escape: bool): string
  {
    if t == [] then [] else PieceText(t[0], d, sentOn, escape) + Render(t[1..], d, sentOn, escape)
  }

  lemma RenderFrom(t: seq<Piece>, k: nat, d: ContactEmailData, sentOn: string, escape: bool)
    requires k < |t|
    ensures Render(t[k..], d, sentOn, escape) == PieceText(t[k], d, sentOn, escape) + Render(t[k + 1..], d, sentOn, escape)
  {
    assert t[k..][0] == t[k] && t[k..][1..] == t[k + 1..];
  }

  /** `generateContactEmailHTML(data)`, with the formatted date as `sentOn`. */
  function GenerateContactEmailHtml(d: ContactEmailData, sentOn: string): (r: string)
    ensures forall c :: Unsafe(c) ==> Count(r, c) == SkeletonCount(HtmlTemplate(), sentOn, c)
  {
    var t := HtmlTemplate();
    assert forall c :: Unsafe(c) ==> Count(Trim(Render(t, d, sentOn, true)), c) == SkeletonCount(t, sentOn, c) by {
      forall c | Unsafe(c)
        ensures Count(Trim(Render(t, d, sentOn, true)), c) == SkeletonCount(t, sentOn, c)
      {
        GeneratedMarkup(t, d, sentOn, c);
      }
    }
    Trim(Render(t, d, sentOn, true))
  }

  /** `generateContactEmailText(data)`, with the formatted date as `sentOn`. */
  function GenerateContactEmailText(d: ContactEmailData, sentOn: string): (r: string)
    ensures Contains(r, d.name) && Contains(r, d.email)
    ensures Contains(r, d.subject) && Contains(r, d.message)
  {
    RenderedTextKeepsFields(d, sentOn);
    Trim(Render(TextTemplate(), d, sentOn, false))
  }

  function EscapeData(d: ContactEmailData): ContactEmailData
  {
    ContactEmailData(EscapeHtml(d.name), EscapeHtml(d.email), EscapeHtml(d.subject), EscapeHtml(d.message))
  }

  /** Escaping at each hole is the same as escaping all four fields up front and
      inserting them verbatim. */
  lemma {:induction false} RenderEscapesFields(t: seq<Piece>, d: ContactEmailData, sentOn: string)
    ensures Render(t, d, sentOn, true) == Render(t, EscapeData(d), sentOn, false)
  {
    if t != [] {
      RenderEscapesFields(t[1..], d, sentOn);
    }
  }

  /** The occurrences of `c` a template contributes by itself: its literal text
      and its timestamps. */
  function SkeletonCount(t: seq<Piece>, sentOn: string, c: char): nat
  {
    if t == [] then 0
    else
      var own := match t[0]
        case Lit(text) => Count(text, c)
        case Hole(SentOn) => Count(sentOn, c)
        case Hole(_) => 0;
      own + SkeletonCount(t[1..], sentOn, c)
  }

  lemma {:induction false} EscapedCount(s: string, c: char)
    requires Unsafe(c)
    ensures Count(EscapeHtml(s), c) == 0
  {
    EscapeHtmlNoUnsafe(s);
    CountAbsent(EscapeHtml(s), c);
  }

  lemma {:induction false} RenderMarkup(t: seq<Piece>, d: ContactEmailData, sentOn: string, c: char)
    requires Unsafe(c)
    ensures Count(Render(t, d, sentOn, true), c) == SkeletonCount(t, sentOn, c)
  {
    if t != [] {
      CountAppend(PieceText(t[0], d, sentOn, true), Render(t[1..], d, sentOn, true), c);
      if t[0].Hole? && t[0].slot != SentOn {
        EscapedCount(FieldText(t[0].slot, d, sentOn), c);
      }
      RenderMarkup(t[1..], d, sentOn, c);
    }
  }

  lemma GeneratedMarkup(t: seq<Piece>, d: ContactEmailData, sentOn: string, c: char)
    requires Unsafe(c)
    ensures Count(Trim(Render(t, d, sentOn, true)), c) == SkeletonCount(t, sentOn, c)
  {
    RenderMarkup(t, d, sentOn, c);
    TrimKeepsCount(Render(t, d, sentOn, true), c);
  }

  /** `v` occurs in `s` as a contiguous slice. */
  predicate Contains(s: string, v: string)
  {
    exists i :: 0 <= i <= |s| && StartsWith(s[i..], v)
  }

  /** A field lying inside the slice `t == x[i..j]` occurs in `t`. */
  lemma SliceContains(t: string, x: string, i: nat, j: nat, lo: nat, v: string)
    requires i <= lo && lo + |v| <= j <= |x| && t == x[i..j] && x[lo..lo + |v|] == v
    ensures Contains(t, v)
  {
    var w := lo - i;
    assert t[w..][..|v|] == v by {
      forall k | 0 <= k < |v|
        ensures t[w..][..|v|][k] == v[k]
      {
        assert t[w + k] == x[lo + k];
      }
    }
    assert StartsWith(t[w..], v);
  }

  /** Trimming stops at a non-whitespace character from either side, so it
      keeps everything between two of them. */
  lemma TrimCut(x: string, a: nat, b: nat) returns (i: nat, j: nat)
    requires a <= b < |x|
    requires !IsWhitespace(x[a]) && !IsWhitespace(x[b])
    ensures i <= a && b < j <= |x| && Trim(x) == x[i..j]
  {
    i, j :| 0 <= i <= j <= |x| && Trim(x) == x[i..j] &&
      (forall k {:trigger IsWhitespace(x[k])} :: 0 <= k < i ==> IsWhitespace(x[k])) &&
      (forall k {:trigger IsWhitespace(x[k])} :: j <= k < |x| ==> IsWhitespace(x[k]));
    assert i <= a;
    assert b < j;
  }

  /** The text template, evaluated: its six literal parts around the fields. */
  lemma TextLayout(d: ContactEmailData, sentOn: string)
    ensures var t := TextTemplate();
      Render(t, d, sentOn, false) == t[0].text + (d.name + (t[2].text + (d.email + (t[4].text + (d.subject + (t[6].text + (d.message + (t[8].text + (sentOn + t[10].text)))))))))
  {
    var t := TextTemplate();
    assert t[11..] == [];
    RenderFrom(t, 10, d, sentOn, false);
    assert Render(t[10..], d, sentOn, false) == t[10].text;
    RenderFrom(t, 9, d, sentOn, false);
    assert Render(t[9..], d, sentOn, false) == sentOn + t[10].text;
    RenderFrom(t, 8, d, sentOn, false);
    assert Render(t[8..], d, sentOn, false) == t[8].text + (sentOn + t[10].text);
    RenderFrom(t, 7, d, sentOn, false);
    assert Render(t[7..], d, sentOn, false) == d.message + (t[8].text + (sentOn + t[10].text));
    RenderFrom(t, 6, d, sentOn, false);
    assert Render(t[6..], d, sentOn, false) == t[6].text + (d.message + (t[8].text + (sentOn + t[10].text)));
    RenderFrom(t, 5, d, sentOn, false);
    assert Render(t[5..], d, sentOn, false) == d.subject + (t[6].text + (d.message + (t[8].text + (sentOn + t[10].text))));
    RenderFrom(t, 4, d, sentOn, false);
    assert Render(t[4..], d, sentOn, false) == t[4].text + (d.subject + (t[6].text + (d.message + (t[8].text + (sentOn + t[10].text)))));
    RenderFrom(t, 3, d, sentOn, false);
    assert Render(t[3..], d, sentOn, false) == d.email + (t[4].text + (d.subject + (t[6].text + (d.message + (t[8].text + (sentOn + t[10].text))))));
    RenderFrom(t, 2, d, sentOn, false);
    assert Render(t[2..], d, sentOn, false) == t[2].text + (d.email + (t[4].text + (d.subject + (t[6].text + (d.message + (t[8].text + (sentOn + t[10].text)))))));
    RenderFrom(t, 1, d, sentOn, false);
    assert Render(t[1..], d, sentOn, false) == d.name + (t[2].text + (d.email + (t[4].text + (d.subject + (t[6].text + (d.message + (t[8].text + (sentOn + t[10].text))))))));
    RenderFrom(t, 0, d, sentOn, false);
    assert Render(t[0..], d, sentOn, false) == t[0].text + (d.name + (t[2].text + (d.email + (t[4].text + (d.subject + (t[6].text + (d.message + (t[8].text + (sentOn + t[10].text)))))))));
    assert t[0..] == t;
  }

  /** Peeling a part off the front of a suffix of `x`. */
  lemma Peel(x: string, o: nat, p: string, s: string)
    requires o <= |x| && x[o..] == p + s
    ensures x[o + |p|..] == s && x[o..o + |p|] == p
  {
    assert x[o..o + |p|] == x[o..][..|p|];
  }

  /** Where a literal and the field after it sit in a suffix of `x`. */
  lemma PeelPair(x: string, o: nat, lit: string, field: string, s: string)
    requires o <= |x| && x[o..] == lit + (field + s)
    ensures x[o..o + |lit|] == lit
    ensures x[o + |lit|..o + |lit| + |field|] == field
    ensures x[o + |lit| + |field|..] == s
  {
    Peel(x, o, lit, field + s);
    Peel(x, o + |lit|, field, s);
  }

  /** Where the first literal, the name and the e-mail sit in a body that
      begins literal, name, literal, e-mail. */
  lemma LayoutFront(x: string, l0: string, name: string, l2: string, email: string, s4: string)
    requires x == l0 + (name + (l2 + (email + s4)))
    ensures var o3 := |l0| + |name| + |l2|;
      x[..|l0|] == l0 && x[|l0|..|l0| + |name|] == name &&
      x[o3..o3 + |email|] == email && x[o3 + |email|..] == s4
  {
    assert x[0..] == x;
    PeelPair(x, 0, l0, name, l2 + (email + s4));
    PeelPair(x, |l0| + |name|, l2, email, s4);
    assert x[..|l0|] == x[0..|l0|];
  }

  /** Where the subject, the message and the literal after it sit in a suffix
      of a body laid out literal, subject, literal, message, literal, rest. */
  lemma LayoutTail(x: string, o: nat, l4: string, subject: string, l6: string, message: string,
                   l8: string, rest: string)
    requires o <= |x| && x[o..] == l4 + (subject + (l6 + (message + (l8 + rest))))
    ensures var o5 := o + |l4|;
      var o7 := o5 + |subject| + |l6|;
      var o8 := o7 + |message|;
      |x| == o8 + |l8| + |rest| &&
      x[o5..o5 + |subject|] == subject && x[o7..o8] == message && x[o8..o8 + |l8|] == l8
  {
    PeelPair(x, o, l4, subject, l6 + (message + (l8 + rest)));
    var o6 := o + |l4| + |subject|;
    PeelPair(x, o6, l6, message, l8 + rest);
    Peel(x, o6 + |l6| + |message|, l8, rest);
  }

  /** A body laid out as literal, field, literal, ... keeps each field through
      trimming when its first literal and the literal after the message each hold
      a non-whitespace character. */
  lemma FieldsSurviveTrim(l0: string, name: string, l2: string, email: string, l4: string,
                          subject: string, l6: string, message: string, l8: string, rest: string, x: string)
    requires x == l0 + (name + (l2 + (email + (l4 + (subject + (l6 + (message + (l8 + rest))))))))
    requires |l0| > 1 && !IsWhitespace(l0[1])
    requires |l8| > 2 && !IsWhitespace(l8[2])
    ensures Contains(Trim(x), name) && Contains(Trim(x), email)
    ensures Contains(Trim(x), subject) && Contains(Trim(x), message)
  {
    var s4 := l4 + (subject + (l6 + (message + (l8 + rest))));
    LayoutFront(x, l0, name, l2, email, s4);
    var o1 := |l0|;
    var o3 := o1 + |name| + |l2|;
    LayoutTail(x, o3 + |email|, l4, subject, l6, message, l8, rest);
    var o5 := o3 + |email| + |l4|;
    var o7 := o5 + |subject| + |l6|;
    var o8 := o7 + |message|;
    assert x[1] == x[..o1][1];
    assert x[o8 + 2] == x[o8..o8 + |l8|][2];
    FieldsAtOffsetsSurvive(x, o1, o3, o5, o7, o8, name, email, subject, message);
  }

  /** Four fields at known offsets, between two non-whitespace characters of
      `x`, all occur in `Trim(x)`. */
  lemma FieldsAtOffsetsSurvive(x: string, o1: nat, o3: nat, o5: nat, o7: nat, o8: nat,
                               name: string, email: string, subject: string, message: string)
    requires 1 <= o1 && o1 + |name| <= o3 && o3 + |email| <= o5 && o5 + |subject| <= o7 && o7 + |message| == o8
    requires o8 + 2 < |x| && !IsWhitespace(x[1]) && !IsWhitespace(x[o8 + 2])
    requires x[o1..o1 + |name|] == name && x[o3..o3 + |email|] == email
    requires x[o5..o5 + |subject|] == subject && x[o7..o7 + |message|] == message
    ensures Contains(Trim(x), name) && Contains(Trim(x), email)
    ensures Contains(Trim(x), subject) && Contains(Trim(x), message)
  {
    var i, j := TrimCut(x, 1, o8 + 2);
    SliceContains(Trim(x), x, i, j, o1, name);
    SliceContains(Trim(x), x, i, j, o3, email);
    SliceContains(Trim(x), x, i, j, o5, subject);
    SliceContains(Trim(x), x, i, j, o7, message);
  }

  /** The text template's fields survive the final trim, as they are. */
  lemma RenderedTextKeepsFields(d: ContactEmailData, sentOn: string)
    ensures var x := Trim(Render(TextTemplate(), d, sentOn, false));
      Contains(x, d.name) && Contains(x, d.email) && Contains(x, d.subject) && Contains(x, d.message)
  {
    var t := TextTemplate();
    TextLayout(d, sentOn);
    assert t[0].text[1] == 'N' && t[8].text[2] == '-';
    FieldsSurviveTrim(t[0].text, d.name, t[2].text, d.email, t[4].text, d.subject, t[6].text,
                      d.message, t[8].text, sentOn + t[10].text, Render(t, d, sentOn, false));
  }

  // ---- sendContactEmail ----

  /** `${n}` for a non-negative integer: its decimal digits. */
  function Decimal(n: nat): (s: string)
    ensures |s| >= 1
    ensures forall i :: 0 <= i < |s| ==> '0' <= s[i] <= '9'
  {
    if n < 10 then [('0' as int + n) as char] else Decimal(n / 10) + [('0' as int + n % 10) as char]
  }

  /** The value of a string of decimal digits. */
  function DecimalValue(s: string): nat
    requires forall i :: 0 <= i < |s| ==> '0' <= s[i] <= '9'
  {
    if s == [] then 0 else 10 * DecimalValue(s[..|s| - 1]) + (s[|s| - 1] as int - '0' as int)
  }

  /** The tracking header identifies the send time exactly. */
  lemma {:induction false} DecimalRoundTrip(n: nat)
    ensures DecimalValue(Decimal(n)) == n
  {
    if n >= 10 {
      var s := Decimal(n);
      assert s[..|s| - 1] == Decimal(n / 10);
      DecimalRoundTrip(n / 10);
    }
  }

  /** The value of the `X-Entity-Ref-ID` header. */
  function EntityRefId(now: nat): (id: string)
    ensures StartsWith(id, "contact-")
    ensures forall i :: 8 <= i < |id| ==> '0' <= id[i] <= '9'
    ensures DecimalValue(id[8..]) == now
  {
    DecimalRoundTrip(now);
    assert ("contact-" + Decimal(now))[8..] == Decimal(now);
    "contact-" + Decimal(now)
  }

  /** The configuration `sendContactEmail` reads: whether the mail client was
      created, and the EMAIL_FROM / EMAIL_TO settings. */
  datatype Config = Config(clientConfigured: bool, emailFrom: Option<string>, emailTo: Option<string>)

  /** JavaScript truthiness of an optional string. */
  predicate Truthy(o: Option<string>)
  {
    o.Some? && o.value != ""
  }

  /** The one send request: the arguments of `resend.emails.send`. Its HTML and
      text bodies are generated from the submission it carries and the time at
      which they are formatted. */
  datatype EmailRequest = EmailRequest(
    from: string, to: string, subject: string, replyTo: string, entityRefId: string,
    content: ContactEmailData, sentOn: string)
  {
    function Html(): string
    {
      GenerateContactEmailHtml(content, sentOn)
    }

    function Text(): string
    {
      GenerateContactEmailText(content, sentOn)
    }
  }

  /** What the mail client does with a request: returns an id (possibly missing),
      returns an error object (whose message may be empty), or throws (an `Error`
      with its message, or some other value). */
  datatype ProviderOutcome = Delivered(id: Option<string>) | Rejected(message: string) | Threw(errorMessage: Option<string>)

  /** The four result shapes: `{success: false, error, isDevelopment: true}`,
      `{success: false, error}`, and `{success: true, messageId}`. */
  datatype SendResult = Unconfigured(error: string) | SendFailed(error: string) | Sent(messageId: Option<string>) {
    predicate Success() { Sent? }
    predicate IsDevelopment() { Unconfigured? }
  }

  /** The request sent, if any, and the result returned. */
  datatype Delivery = Delivery(attempt: Option<EmailRequest>, result: SendResult)

  const SubjectPrefix := "Portfolio Contact: "

  /** `sendContactEmail(data)` at time `now`. */
  function SendContactEmail(cfg: Config, d: ContactEmailData, now: nat, sentOn: string,
                            provider: EmailRequest -> ProviderOutcome): (r: Delivery)
    ensures r.attempt.Some? <==> cfg.clientConfigured && Truthy(cfg.emailFrom) && Truthy(cfg.emailTo)
    ensures r.result.Sent? <==> r.attempt.Some? && provider(r.attempt.value).Delivered?
    ensures r.result.Unconfigured? <==> !cfg.clientConfigured
    ensures r.attempt.Some? ==>
      var q := r.attempt.value;
      q.from == cfg.emailFrom.value && q.to == cfg.emailTo.value &&
      StartsWith(q.subject, SubjectPrefix) && q.subject[|SubjectPrefix|..] == d.subject &&
      q.replyTo == d.email &&
      q.content == d && q.sentOn == sentOn && q.entityRefId == EntityRefId(now)
  {
    if !cfg.clientConfigured then
      Delivery(None, Unconfigured("Email service not configured"))
    else if !Truthy(cfg.emailFrom) || !Truthy(cfg.emailTo) then
      Delivery(None, SendFailed("Email addresses not configured"))
    else
      var request := EmailRequest(
        cfg.emailFrom.value, cfg.emailTo.value, SubjectPrefix + d.subject,
        d.email, EntityRefId(now), d, sentOn);
      assert (SubjectPrefix + d.subject)[|SubjectPrefix|..] == d.subject;
      var result := match provider(request)
        case Delivered(id) => Sent(id)
        case Rejected(message) => SendFailed(if message == "" then "Failed to send email" else message)
        case Threw(errorMessage) => SendFailed(if errorMessage.Some? then errorMessage.value else "Unknown error occurred");
      Delivery(Some(request), result)
  }

  /** Without a client: the development shape, and nothing is sent. */
  lemma NoClientNoSend(cfg: Config, d: ContactEmailData, now: nat, sentOn: string, provider: EmailRequest -> ProviderOutcome)
    requires !cfg.clientConfigured
    ensures SendContactEmail(cfg, d, now, sentOn, provider) == Delivery(None, Unconfigured("Email service not configured"))
    ensures !SendContactEmail(cfg, d, now, sentOn, provider).result.Success()
    ensures SendContactEmail(cfg, d, now, sentOn, provider).result.IsDevelopment()
  {
  }

  /** With a client but a missing address: a failure, and nothing is sent. */
  lemma NoAddressNoSend(cfg: Config, d: ContactEmailData, now: nat, sentOn: string, provider: EmailRequest -> ProviderOutcome)
    requires cfg.clientConfigured && (!Truthy(cfg.emailFrom) || !Truthy(cfg.emailTo))
    ensures SendContactEmail(cfg, d, now, sentOn, provider) == Delivery(None, SendFailed("Email addresses not configured"))
  {
  }

  /** A send's result follows the client's outcome: its id on success, its error
      message (or a fixed fallback) when it reports an error or throws. */
  lemma SendOutcome(cfg: Config, d: ContactEmailData, now: nat, sentOn: string, provider: EmailRequest -> ProviderOutcome)
    requires cfg.clientConfigured && Truthy(cfg.emailFrom) && Truthy(cfg.emailTo)
    ensures var r := SendContactEmail(cfg, d, now, sentOn, provider);
      r.attempt.Some? &&
      match provider(r.attempt.value)
      case Delivered(id) => r.result == Sent(id)
      case Rejected(m) => r.result == SendFailed(if m == "" then "Failed to send email" else m)
      case Threw(e) => r.result == SendFailed(if e.Some? then e.value else "Unknown error occurred")
  {
  }

  /** The fixed submission `sendTestEmail` sends. */
  const TestSubmission := ContactEmailData(
    "Test User", "test@example.com", "Test Email from Portfolio",
    "This is a test email to verify the email configuration is working correctly.")

  /** `sendContactEmail` on the fixed test submission: with a working
      configuration the request replies to the test address under the prefixed
      test subject; otherwise it fails exactly as an ordinary send does. */
  function SendTestEmail(cfg: Config, now: nat, sentOn: string,
                         provider: EmailRequest -> ProviderOutcome): (r: Delivery)
    ensures r.attempt.Some? <==> cfg.clientConfigured && Truthy(cfg.emailFrom) && Truthy(cfg.emailTo)
    ensures r.result.Unconfigured? <==> !cfg.clientConfigured
    ensures r.attempt.Some? ==>
      r.attempt.value.replyTo == "test@example.com" &&
      StartsWith(r.attempt.value.subject, SubjectPrefix) &&
      r.attempt.value.subject[|SubjectPrefix|..] == "Test Email from Portfolio" &&
      r.attempt.value.content.name == "Test User"
  {
    SendContactEmail(cfg, TestSubmission, now, sentOn, provider)
  }

  // ---- The client's configuration, as lib/email.ts reads it ----

  /** The keys the environment schema declares; parsing keeps only these. */
  const DeclaredEnvKeys: set<string> := {
    "NEXT_PUBLIC_SITE_URL", "NEXT_PUBLIC_SITE_NAME", "MONGODB_URI", "MONGODB_DB",
    "EMAIL_FROM", "EMAIL_TO", "EMAIL_API_KEY", "NODE_ENV"}

  /** The parsed environment `env`: the declared keys of the process
      environment, with NODE_ENV defaulting to "development". */
  function ParseEnv(raw: map<string, string>): (env: map<string, string>)
    ensures env.Keys <= DeclaredEnvKeys
    ensures forall k :: k in raw && k in DeclaredEnvKeys ==> k in env && env[k] == raw[k]
    ensures forall k :: k in env ==>
      (k in raw && env[k] == raw[k]) || (k == "NODE_ENV" && "NODE_ENV" !in raw && env[k] == "development")
    ensures "NODE_ENV" in env
  {
    var kept := map k | k in raw && k in DeclaredEnvKeys :: raw[k];
    if "NODE_ENV" in kept then kept else kept["NODE_ENV" := "development"]
  }

  function Lookup(env: map<string, string>, key: string): Option<string>
  {
    if key in env then Some(env[key]) else None
  }

  /** The client is created when `env.RESEND_API_KEY` is truthy (line 6 as written). */
  function ConfigAsWritten(env: map<string, string>): (cfg: Config)
    ensures cfg.clientConfigured <==> "RESEND_API_KEY" in env && env["RESEND_API_KEY"] != ""
    ensures cfg.emailFrom.Some? <==> "EMAIL_FROM" in env
    ensures cfg.emailTo.Some? <==> "EMAIL_TO" in env
  {
    Config(Truthy(Lookup(env, "RESEND_API_KEY")), Lookup(env, "EMAIL_FROM"), Lookup(env, "EMAIL_TO"))
  }

  /** The key the schema declares for the mail service is EMAIL_API_KEY. */
  function ConfigFromEnv(env: map<string, string>): (cfg: Config)
    ensures cfg.clientConfigured <==> "EMAIL_API_KEY" in env && env["EMAIL_API_KEY"] != ""
  {
    Config(Truthy(Lookup(env, "EMAIL_API_KEY")), Lookup(env, "EMAIL_FROM"), Lookup(env, "EMAIL_TO"))
  }

  /** As written, the client is never created, whatever the process environment
      holds: RESEND_API_KEY is not a declared key, so parsing strips it. Every
      call then takes the development path and sends nothing. */
  lemma ResendKeyNeverSeen(raw: map<string, string>, d: ContactEmailData, now: nat, sentOn: string,
                           provider: EmailRequest -> ProviderOutcome)
    ensures !ConfigAsWritten(ParseEnv(raw)).clientConfigured
    ensures SendContactEmail(ConfigAsWritten(ParseEnv(raw)), d, now, sentOn, provider).attempt.None?
  {
    assert "RESEND_API_KEY" !in DeclaredEnvKeys;
  }

  /** A deployment that sets the mail key and both addresses gets a send attempt
      when the configuration is read from the declared key. */
  lemma DeclaredKeyEnablesSending(raw: map<string, string>, d: ContactEmailData, now: nat, sentOn: string,
                                  provider: EmailRequest -> ProviderOutcome)
    requires "EMAIL_API_KEY" in raw && raw["EMAIL_API_KEY"] != ""
    requires "EMAIL_FROM" in raw && raw["EMAIL_FROM"] != ""
    requires "EMAIL_TO" in raw && raw["EMAIL_TO"] != ""
    ensures SendContactEmail(ConfigFromEnv(ParseEnv(raw)), d, now, sentOn, provider).attempt.Some?
  {
    var env := ParseEnv(raw);
    assert "EMAIL_API_KEY" in env && "EMAIL_FROM" in env && "EMAIL_TO" in env;
  }

  // ---- The two templates, as written ----

  function HtmlTemplate(): seq<Piece>
  {
    [
      Lit(
        "\n" +
        "<!DOCTYPE " + "html>\n" +
        "<html " + "lang=\"en\">\n" +
        "<head>\n" +
        "  <meta " + "charset=\"UTF-8\">\n" +
        "  <meta " + "name=\"viewport\" " + "content=\"width=device-width, " + "initial-scale=1.0\">\n" +
        "  <title>Portfolio " + "Contact " + "Form " + "Submission</title>\n" +
        "  <style>\n" +
        "    body " + "{\n" +
        "      font-family: " + "-apple-system, " + "BlinkMacSystemFont, " + "'Segoe " + "UI', " + "Roboto, " + "'Helvetica " + "Neue', " + "Arial, " + "sans-serif;\n" +
        "      line-height: " + "1.6;\n" +
        "      color: " + "#333;\n" +
        "      max-width: " + "600px;\n" +
        "      margin: " + "0 " + "auto;\n" +
        "      padding: " + "20px;\n" +
        "      background-color: " + "#f5f5f5;\n" +
        "    }\n" +
        "    .container " + "{\n" +
        "      background-color: " + "#ffffff;\n" +
        "      border-radius: " + "8px;\n" +
        "      padding: " + "30px;\n" +
        "      box-shadow: " + "0 " + "2px " + "4px " + "rgba(0, " + "0, " + "0, " + "0.1);\n" +
        "    }\n" +
        "    .header " + "{\n" +
        "      border-bottom: " + "3px " + "solid " + "#8b5cf6;\n" +
        "      padding-bottom: " + "20px;\n" +
        "      margin-bottom: " + "30px;\n" +
        "    }\n" +
        "    .header " + "h1 " + "{\n" +
        "      margin: " + "0;\n" +
        "      color: " + "#8b5cf6;\n" +
        "      font-size: " + "24px;\n" +
        "    }\n" +
        "    .field " + "{\n" +
        "      margin-bottom: " + "20px;\n" +
        "    }\n" +
        "    .label " + "{\n" +
        "      font-weight: " + "600;\n" +
        "      color: " + "#666;\n" +
        "      font-size: " + "12px;\n" +
        "      text-transform: " + "uppercase;\n" +
        "      letter-spacing: " + "0.5px;\n" +
        "      margin-bottom: " + "5px;\n" +
        "    }\n" +
        "    .value " + "{\n" +
        "      color: " + "#333;\n" +
        "      font-size: " + "16px;\n" +
        "      margin-top: " + "5px;\n" +
        "    }\n" +
        "    .message-box " + "{\n" +
        "      background-color: " + "#f8f9fa;\n" +
        "      border-left: " + "4px " + "solid " + "#8b5cf6;\n" +
        "      padding: " + "15px;\n" +
        "      border-radius: " + "4px;\n" +
        "      margin-top: " + "10px;\n" +
        "      white-space: " + "pre-wrap;\n" +
        "      word-wrap: " + "break-word;\n" +
        "    }\n" +
        "    .footer " + "{\n" +
        "      margin-top: " + "30px;\n" +
        "      padding-top: " + "20px;\n" +
        "      border-top: " + "1px " + "solid " + "#e5e7eb;\n" +
        "      text-align: " + "center;\n" +
        "      color: " + "#666;\n" +
        "      font-size: " + "14px;\n" +
        "    }\n" +
        "    .reply-button " + "{\n" +
        "      display: " + "inline-block;\n" +
        "      background-color: " + "#8b5cf6;\n" +
        "      color: " + "white;\n" +
        "      text-decoration: " + "none;\n" +
        "      padding: " + "12px " + "24px;\n" +
        "      border-radius: " + "6px;\n" +
        "      margin-top: " + "20px;\n" +
        "      font-weight: " + "600;\n" +
        "    }\n" +
        "  </style>\n" +
        "</head>\n" +
        "<body>\n" +
        "  <div " + "class=\"container\">\n" +
        "    <div " + "class=\"header\">\n" +
        "      <h1>📬 " + "New " + "Contact " + "Form " + "Submission</h1>\n" +
        "    </div>\n" +
        "\n" +
        "    <div " + "class=\"field\">\n" +
        "      <div " + "class=\"label\">From</div>\n" +
        "      <div " + "class=\"value\"><strong>"),
      Hole(NameSlot),
      Lit(
        "</strong></div>\n" +
        "    </div>\n" +
        "\n" +
        "    <div " + "class=\"field\">\n" +
        "      <div " + "class=\"label\">Email</div>\n" +
        "      <div " + "class=\"value\">\n" +
        "        <a " + "href=\"mailto:"),
      Hole(EmailSlot),
      Lit(
        "\" " + "style=\"color: " + "#8b5cf6; " + "text-decoration: " + "none;\">\n" +
        "          "),
      Hole(EmailSlot),
      Lit(
        "\n" +
        "        </a>\n" +
        "      </div>\n" +
        "    </div>\n" +
        "\n" +
        "    <div " + "class=\"field\">\n" +
        "      <div " + "class=\"label\">Subject</div>\n" +
        "      <div " + "class=\"value\">"),
      Hole(SubjectSlot),
      Lit(
        "</div>\n" +
        "    </div>\n" +
        "\n" +
        "    <div " + "class=\"field\">\n" +
        "      <div " + "class=\"label\">Message</div>\n" +
        "      <div " + "class=\"message-box\">"),
      Hole(MessageSlot),
      Lit(
        "</div>\n" +
        "    </div>\n" +
        "\n" +
        "    <div " + "style=\"text-align: " + "center;\">\n" +
        "      <a " + "href=\"mailto:"),
      Hole(EmailSlot),
      Lit(
        "\" " + "class=\"reply-button\">\n" +
        "        Reply " + "to "),
      Hole(NameSlot),
      Lit(
        "\n" +
        "      </a>\n" +
        "    </div>\n" +
        "\n" +
        "    <div " + "class=\"footer\">\n" +
        "      <p>This " + "email " + "was " + "sent " + "from " + "your " + "portfolio " + "contact " + "form.</p>\n" +
        "      <p " + "style=\"color: " + "#999; " + "font-size: " + "12px;\">\n" +
        "        Sent " + "on "),
      Hole(SentOn),
      Lit(
        "\n" +
        "      </p>\n" +
        "    </div>\n" +
        "  </div>\n" +
        "</body>\n" +
        "</html>\n" +
        "  ")
    ]
  }

  function TextTemplate(): seq<Piece>
  {
    [
      Lit(
        "\n" +
        "NEW CONTACT FORM SUBMISSION\n" +
        "===========================\n" +
        "\n" +
        "From: "),
      Hole(NameSlot),
      Lit(
        "\n" +
        "Email: "),
      Hole(EmailSlot),
      Lit(
        "\n" +
        "Subject: "),
      Hole(SubjectSlot),
      Lit(
        "\n" +
        "\n" +
        "Message:\n" +
        "--------\n"),
      Hole(MessageSlot),
      Lit(
        "\n" +
        "\n" +
        "---\n" +
        "Sent from your portfolio contact form\n"),
      Hole(SentOn),
      Lit(
        "\n" +
        "  ")
    ]
  }
}
