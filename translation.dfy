/** The translator capability's shared values: locales, the two sentinel locales and a translation result. */
module Translation {
  import opened Common

  /** One subtag of a language tag: it never contains the '-' separator. */
  type Subtag = s: string | '-' !in s

  /** A java.util.Locale: its language subtag and the remaining subtags (script, region, variant). */
  datatype Locale = Locale(language: Subtag, rest: seq<Subtag>)

  /** A tag cut at every '-': the pieces between separators, in order, possibly empty. */
  function SplitSubtags(tag: string): (parts: seq<Subtag>)
    decreases |tag|
    ensures |parts| >= 1
  {
    if tag == [] then [""]
    else
      var tail := SplitSubtags(tag[1..]);
      if tag[0] == '-' then [""] + tail
      else
        var first := [tag[0]] + tail[0];
        assert forall c :: c in first ==> c == tag[0] || c in tail[0];
        [first] + tail[1..]
  }

  /** The subtags written back as a tag, separated by '-'. */
  function Joined(parts: seq<Subtag>): string
    requires |parts| >= 1
  {
    parts[0] + JoinSubtags(parts[1..])
  }

  /** Cutting a tag at its separators loses nothing. */
  lemma {:induction false} JoinedSplit(tag: string)
    decreases |tag|
    ensures Joined(SplitSubtags(tag)) == tag
  {
    if tag != [] {
      var tail := SplitSubtags(tag[1..]);
      JoinedSplit(tag[1..]);
      var parts := SplitSubtags(tag);
      if tag[0] == '-' {
        assert parts[0] == "" && parts[1..] == tail;
        calc {
          Joined(parts);
          JoinSubtags(tail);
          "-" + tail[0] + JoinSubtags(tail[1..]);
          { AppendAssociative("-", tail[0], JoinSubtags(tail[1..])); }
          "-" + Joined(tail);
          "-" + tag[1..];
          tag;
        }
      } else {
        assert parts[0] == [tag[0]] + tail[0] && parts[1..] == tail[1..];
        calc {
          Joined(parts);
          ([tag[0]] + tail[0]) + JoinSubtags(tail[1..]);
          { AppendAssociative([tag[0]], tail[0], JoinSubtags(tail[1..])); }
          [tag[0]] + Joined(tail);
          [tag[0]] + tag[1..];
          tag;
        }
      }
    }
  }

  /** A tag without separators is a single subtag. */
  lemma {:induction false} SplitSingle(tag: string)
    requires '-' !in tag
    decreases |tag|
    ensures SplitSubtags(tag) == [tag]
  {
    if tag != [] {
      assert '-' !in tag[1..] by {
        forall c | c in tag[1..] ensures c != '-' { assert c in tag; }
      }
      SplitSingle(tag[1..]);
      assert [tag[0]] + tag[1..] == tag;
    }
  }

  /** Cutting the tag written from subtags gives those subtags back. */
  lemma {:induction false} SplitJoined(parts: seq<Subtag>)
    requires |parts| >= 1
    decreases |parts|, |parts[0]|
    ensures SplitSubtags(Joined(parts)) == parts
  {
    var tag := Joined(parts);
    var first, rest := parts[0], parts[1..];
    if first == [] {
      if rest == [] {
        assert tag == "";
      } else {
        assert tag == "-" + Joined(rest) by {
          AppendAssociative("-", rest[0], JoinSubtags(rest[1..]));
        }
        SplitJoined(rest);
        assert tag[1..] == Joined(rest);
        assert parts == [""] + rest;
      }
    } else {
      var shorter := [first[1..]] + rest;
      assert '-' !in first[1..] by {
        forall c | c in first[1..] ensures c != '-' { assert c in first; }
      }
      assert Joined(shorter) == first[1..] + JoinSubtags(rest) by {
        assert shorter[0] == first[1..] && shorter[1..] == rest;
      }
      SplitJoined(shorter);
      assert tag == [first[0]] + Joined(shorter) by {
        AppendAssociative([first[0]], first[1..], JoinSubtags(rest));
        assert [first[0]] + first[1..] == first;
      }
      assert tag[0] == first[0] && tag[1..] == Joined(shorter);
      assert [first[0]] + first[1..] == first;
    }
  }

  lemma AppendAssociative<T>(a: seq<T>, b: seq<T>, c: seq<T>)
    ensures (a + b) + c == a + (b + c)
  {
  }

  /**
    * Locale.forLanguageTag: the first subtag is the language, the others (script, region,
    * variant) are kept in order. Writing the locale back as a tag gives the input.
    */
  function ForLanguageTag(tag: string): (r: Locale)
    ensures ToLanguageTag(r) == tag
    ensures '-' !in tag ==> r == Locale(tag, [])
  {
    var parts := SplitSubtags(tag);
    JoinedSplit(tag);
    if '-' in tag then Locale(parts[0], parts[1..])
    else SplitSingle(tag); Locale(parts[0], parts[1..])
  }

  /** Parsing the tag of a locale gives the locale back. */
  lemma ForLanguageTagOfTag(l: Locale)
    ensures ForLanguageTag(ToLanguageTag(l)) == l
  {
    var parts := [l.language] + l.rest;
    assert parts[0] == l.language && parts[1..] == l.rest;
    SplitJoined(parts);
  }

  /** The language-only locale of l, as the translators retry with. */
  function LanguageOnly(l: Locale): (r: Locale)
    ensures r.language == l.language && r.rest == []
    ensures r == l <==> l.rest == []
  {
    ForLanguageTag(l.language)
  }

  /** Locale.toLanguageTag: the subtags joined by '-'. */
  function ToLanguageTag(l: Locale): string {
    l.language + JoinSubtags(l.rest)
  }

  function JoinSubtags(tags: seq<string>): string {
    if tags == [] then "" else "-" + tags[0] + JoinSubtags(tags[1..])
  }

  /** Translator.AUTO_DETECT: the source is unknown and the provider must detect it. */
  const AutoDetect: Locale := ForLanguageTag("auto")

  /** Translator.ROUTER: a routing marker that is never translated. */
  const Router: Locale := ForLanguageTag("router")

  /** TranslatedText: the translation and, when known, the source language it was taken from. */
  datatype TranslatedText = TranslatedText(text: string, detected: Option<Locale>)

  datatype TranslationError =
    | UnsupportedLanguage(locale: Locale)   // UnsupportedLanguageException
    | RequestFailed(status: int)             // "Failed to translate text: <status>"
}
