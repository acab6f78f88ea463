/**
 * Locale routing (src/i18n/index.ts): the language of a URL path and the
 * rewriting of a path from one language to another.  English is the default
 * language and is served without a prefix; every other language is served
 * under `/<code>`.
 */
module I18n {
  import opened Wrappers
  import opened Text

  /** The keys of the `languages` object, i.e. exactly the two supported codes. */
  datatype Language = En | Vi

  function Code(l: Language): string {
    match l
    case En => "en"
    case Vi => "vi"
  }

  const DefaultLang: Language := En

  /** `Object.keys(languages)`, in declaration order. */
  const Languages: seq<Language> := [En, Vi]

  /** `code in languages`, restricted to the object's own keys (see README, Findings). */
  function LanguageOfCode(code: string): (r: Option<Language>)
    ensures r.Some? ==> Code(r.value) == code
    ensures (exists l: Language :: Code(l) == code) ==> r.Some?
  {
    if code == "en" then Some(En)
    else if code == "vi" then Some(Vi)
    else None
  }

  /** Reference reading of the first path segment: what lies between the first
      and the second `/`, or nothing when the path has no `/` at all. */
  function FirstSegment(pathname: string): Option<string> {
    if '/' in pathname then Some(Before(After(pathname, '/'), '/')) else None
  }

  /** Field 1 of `pathname.split('/')` exists exactly when the path has a `/`,
      and it is then the first segment. */
  lemma {:induction false} SecondFieldIsFirstSegment(pathname: string)
    ensures |Split(pathname, '/')| >= 2 <==> FirstSegment(pathname).Some?
    ensures FirstSegment(pathname).Some? ==> Split(pathname, '/')[1] == FirstSegment(pathname).value
  {
    SplitFields(pathname, '/');
    if '/' in pathname {
      SplitFields(After(pathname, '/'), '/');
    }
  }

  /** `getLangFromUrl`: `const [, lang] = pathname.split('/')`, then `lang in languages`. */
  function GetLangFromUrl(pathname: string): (l: Language)
    ensures l == Vi <==> FirstSegment(pathname) == Some("vi")
    ensures l == En <==> FirstSegment(pathname) != Some("vi")
  {
    SecondFieldIsFirstSegment(pathname);
    var fields := Split(pathname, '/');
    if |fields| >= 2 then LanguageOfCode(fields[1]).GetOr(DefaultLang)
    else DefaultLang
  }

  /** The first segment of `/` + `seg` + `/` + `rest`, and of `/` + `seg`, is `seg`. */
  lemma FirstSegmentOf(seg: string, rest: string)
    requires '/' !in seg
    ensures FirstSegment("/" + seg + "/" + rest) == Some(seg)
    ensures FirstSegment("/" + seg) == Some(seg)
  {
    BeforeAfterConcat("", '/', seg + "/" + rest);
    assert "" + "/" + (seg + "/" + rest) == "/" + seg + "/" + rest;
    BeforeAfterConcat(seg, '/', rest);
    BeforeAfterConcat("", '/', seg);
    assert "" + "/" + seg == "/" + seg;
    BeforeWithoutSep(seg, '/');
  }

  /** Only the first segment decides: `/<code>/...` and `/<code>` are in that language. */
  lemma LangOfPrefixedPath(l: Language, rest: string)
    ensures GetLangFromUrl("/" + Code(l) + "/" + rest) == l
    ensures GetLangFromUrl("/" + Code(l)) == l
  {
    FirstSegmentOf(Code(l), rest);
  }

  /** The root path gives the default language (its first segment is empty). */
  lemma RootIsDefault()
    ensures GetLangFromUrl("/") == En
  {
    FirstSegmentOf("", "");
    assert "/" + "" == "/";
  }

  /** A language code in a later segment is not looked at: a first segment
      other than `vi` gives English whatever follows. */
  lemma LaterSegmentIgnored(seg: string, rest: string)
    requires '/' !in seg && seg != "vi"
    ensures GetLangFromUrl("/" + seg + "/" + rest) == En
  {
    FirstSegmentOf(seg, rest);
  }

  /** A segment that merely begins with a code is not that language. */
  lemma LongerSegmentIsDefault()
    ensures GetLangFromUrl("/video") == En
  {
    FirstSegmentOf("video", "");
    assert "/" + "video" == "/video";
  }

  // ---------------------------------------------------------------------------
  // `lang in languages` as written

  /** Property names that `in` also finds on a plain object literal: those it
      inherits from Object.prototype. */
  const ObjectPrototypeNames: set<string> := {
    "constructor", "hasOwnProperty", "isPrototypeOf", "propertyIsEnumerable",
    "toLocaleString", "toString", "valueOf", "__proto__", "__defineGetter__",
    "__defineSetter__", "__lookupGetter__", "__lookupSetter__"
  }

  /** `getLangFromUrl` as written: the string it returns, where `in` accepts the
      object's own keys and every inherited name.  A missing field 1 is
      `undefined`, which `in` looks up as the key "undefined". */
  function GetLangCodeAsWritten(pathname: string): (code: string)
    ensures FirstSegment(pathname).Some? && FirstSegment(pathname).value in ObjectPrototypeNames ==>
              code == FirstSegment(pathname).value
  {
    SecondFieldIsFirstSegment(pathname);
    var fields := Split(pathname, '/');
    var lang := if |fields| >= 2 then fields[1] else "undefined";
    if lang in {"en", "vi"} || lang in ObjectPrototypeNames then lang else Code(DefaultLang)
  }

  /** The as-written lookup routes a path whose first segment is an inherited
      property name, such as `/toString/guides`, to a "language" that has no
      translation table; the corrected `GetLangFromUrl` routes it to English. */
  lemma PrototypeNameAccepted(name: string, rest: string)
    requires name in ObjectPrototypeNames
    ensures GetLangCodeAsWritten("/" + name + "/" + rest) == name
    ensures LanguageOfCode(name) == None
    ensures GetLangFromUrl("/" + name + "/" + rest) == En
  {
    PrototypeNamesAreSegments();
    FirstSegmentOf(name, rest);
  }

  /** No inherited property name contains a `/` or is a supported code. */
  lemma PrototypeNamesAreSegments()
    ensures forall name :: name in ObjectPrototypeNames ==> '/' !in name && name != "en" && name != "vi"
  {
  }

  /** Wherever the as-written code returns a supported code, it is the code of
      the language the corrected lookup returns. */
  lemma {:induction false} AsWrittenAgreesOnSupportedCodes(pathname: string)
    requires LanguageOfCode(GetLangCodeAsWritten(pathname)).Some?
    ensures GetLangCodeAsWritten(pathname) == Code(GetLangFromUrl(pathname))
  {
    SecondFieldIsFirstSegment(pathname);
  }

  // ---------------------------------------------------------------------------
  // translatePath

  /** The path begins with the prefix `/<code>/` of language `l`. */
  predicate HasPrefix(p: string, l: Language) {
    "/" + Code(l) + "/" <= p
  }

  /** The path carries no language prefix and is not a bare `/<code>`. */
  predicate Unprefixed(p: string) {
    forall l: Language :: !HasPrefix(p, l) && p != "/" + Code(l)
  }

  /** A rooted path whose first character after the `/` is neither `e` nor `v`
      (or that is shorter than a prefix) has no language prefix. */
  lemma UnprefixedByFirstLetter(p: string)
    requires "/" <= p && (|p| < 3 || (p[1] != 'e' && p[1] != 'v'))
    ensures Unprefixed(p)
  {
    forall l: Language ensures !HasPrefix(p, l) && p != "/" + Code(l) {
      if |p| >= 3 {
        assert ("/" + Code(l))[1] == Code(l)[0];
      }
    }
  }

  /** The first language of `langs` whose prefix (or bare form) matches decides
      what is stripped; the loop of `translatePath` breaks there. */
  function StripFirstMatch(p: string, langs: seq<Language>): string {
    if |langs| == 0 then p
    else if HasPrefix(p, langs[0]) then p[|Code(langs[0])| + 1..]
    else if p == "/" + Code(langs[0]) then "/"
    else StripFirstMatch(p, langs[1..])
  }

  /** `cleanPath` after the loop. */
  function CleanPath(p: string): string {
    StripFirstMatch(p, Languages)
  }

  /** The value `translatePath(p, l)` returns. */
  function Translated(p: string, l: Language): string {
    if l == DefaultLang then CleanPath(p) else "/" + Code(l) + CleanPath(p)
  }

  /** `useTranslatedPath(lang)(path, l)`: `l` defaults to the closure's `lang`.
      The loop strips at most one known prefix and stops at the first match. */
  method TranslatePath(lang: Language, path: string, l: Option<Language>) returns (r: string)
    ensures r == Translated(path, l.GetOr(lang))
  {
    var target := l.GetOr(lang);
    var cleanPath := path;
    var i := 0;
    while i < |Languages|
      invariant 0 <= i <= |Languages|
      invariant cleanPath == path
      invariant StripFirstMatch(path, Languages[i..]) == CleanPath(path)
    {
      var code := Code(Languages[i]);
      if "/" + code + "/" <= path {
        cleanPath := path[|code| + 1..];
        break;
      } else if path == "/" + code {
        cleanPath := "/";
        break;
      }
      i := i + 1;
    }
    r := if target == DefaultLang then cleanPath else "/" + Code(target) + cleanPath;
  }

  /** The loop over `[en, vi]` written out: the four cases in the order tried. */
  lemma CleanPathCases(p: string)
    ensures CleanPath(p) ==
      if HasPrefix(p, En) then p[3..]
      else if p == "/en" then "/"
      else if HasPrefix(p, Vi) then p[3..]
      else if p == "/vi" then "/"
      else p
  {
    assert Languages[1..] == [Vi];
    assert [Vi][1..] == [];
    assert StripFirstMatch(p, []) == p;
    assert |Code(En)| + 1 == 3 && |Code(Vi)| + 1 == 3;
    assert CleanPath(p) == StripFirstMatch(p, [En, Vi]);
  }

  /** A leading `/<code>/` is removed, keeping the `/` after it, and only that one
      prefix: `/vi/en/x` becomes `/en/x`. */
  lemma StripsOnePrefix(l: Language, rest: string)
    ensures CleanPath("/" + Code(l) + "/" + rest) == "/" + rest
  {
    var p := "/" + Code(l) + "/" + rest;
    CleanPathCases(p);
    assert p[|Code(l)| + 1..] == "/" + rest;
    if l == Vi {
      assert p[1] == 'v';
      assert !HasPrefix(p, En);
    }
  }

  /** A bare `/<code>` is normalised to the root before prefixing, so
      `translatePath('/vi', 'vi')` is `/vi/`. */
  lemma BareCodeIsRoot(l: Language)
    ensures CleanPath("/" + Code(l)) == "/"
    ensures Translated("/" + Code(l), Vi) == "/vi/"
  {
    var p := "/" + Code(l);
    CleanPathCases(p);
    CleanPathCases("/vi/");
    assert !HasPrefix(p, En) && !HasPrefix(p, Vi);
  }

  /** A path with no prefix and no bare code is left as it is. */
  lemma UnprefixedUnchanged(p: string)
    requires Unprefixed(p)
    ensures CleanPath(p) == p
  {
    CleanPathCases(p);
    assert !HasPrefix(p, En) && p != "/en" && !HasPrefix(p, Vi) && p != "/vi";
  }

  /** A code must be followed by `/` (or end the path) to count as a prefix. */
  lemma PrefixNeedsSlash()
    ensures Unprefixed("/english") && CleanPath("/english") == "/english"
    ensures Unprefixed("/video") && CleanPath("/video") == "/video"
  {
    assert "/english"[3] != '/' && "/video"[3] != '/';
    assert "/english"[1] != 'v' && "/video"[3] != '/';
    UnprefixedUnchanged("/english");
    UnprefixedUnchanged("/video");
  }

  /** Stripping keeps a path rooted. */
  lemma CleanPathRooted(p: string)
    requires "/" <= p
    ensures "/" <= CleanPath(p)
  {
    CleanPathCases(p);
    if HasPrefix(p, En) {
      assert CleanPath(p)[0] == p[3];
    } else if HasPrefix(p, Vi) {
      assert CleanPath(p)[0] == p[3];
    }
  }

  /** Translating to Vietnamese twice is translating once. */
  lemma {:induction false} TranslateViIdempotent(p: string)
    requires "/" <= p
    ensures Translated(Translated(p, Vi), Vi) == Translated(p, Vi)
  {
    var c := CleanPath(p);
    CleanPathRooted(p);
    assert "/" + Code(Vi) + c == "/" + Code(Vi) + "/" + c[1..];
    StripsOnePrefix(Vi, c[1..]);
  }

  /** Translating to English twice is translating once, provided the path had at
      most one prefix to remove. */
  lemma {:induction false} TranslateEnIdempotent(p: string)
    requires Unprefixed(CleanPath(p))
    ensures Translated(Translated(p, En), En) == Translated(p, En)
  {
    UnprefixedUnchanged(CleanPath(p));
  }

  /** With two stacked prefixes English translation is not idempotent. */
  lemma TranslateEnNotIdempotent()
    ensures Translated("/en/vi/x", En) == "/vi/x"
    ensures Translated(Translated("/en/vi/x", En), En) == "/x"
  {
    StripsOnePrefix(En, "vi/x");
    assert "/" + Code(En) + "/" + "vi/x" == "/en/vi/x";
    StripsOnePrefix(Vi, "x");
    assert "/" + Code(Vi) + "/" + "x" == "/vi/x";
  }

  /** To Vietnamese and back to English gives the stripped path, and so the path
      itself when it had no prefix. */
  lemma {:induction false} RoundTrip(p: string)
    requires "/" <= p
    ensures Translated(Translated(p, Vi), En) == CleanPath(p)
    ensures Unprefixed(p) ==> Translated(Translated(p, Vi), En) == p
  {
    var c := CleanPath(p);
    CleanPathRooted(p);
    assert "/" + Code(Vi) + c == "/" + Code(Vi) + "/" + c[1..];
    StripsOnePrefix(Vi, c[1..]);
    if Unprefixed(p) {
      UnprefixedUnchanged(p);
    }
  }

  /** A rooted path without a prefix, translated to any language, is routed back
      to that language. */
  lemma {:induction false} LangOfTranslated(p: string, l: Language)
    requires "/" <= p && Unprefixed(p)
    ensures GetLangFromUrl(Translated(p, l)) == l
  {
    UnprefixedUnchanged(p);
    if l == Vi {
      assert Translated(p, l) == "/" + Code(Vi) + "/" + p[1..];
      LangOfPrefixedPath(Vi, p[1..]);
    } else {
      assert p == "" + "/" + p[1..];
      BeforeAfterConcat("", '/', p[1..]);
      var seg := Before(p[1..], '/');
      assert FirstSegment(p) == Some(seg);
      assert !HasPrefix(p, Vi) && p != "/" + Code(Vi);
      if |seg| == |p[1..]| {
        assert p == "/" + seg;
      } else {
        assert p[|seg| + 1] == '/';
        assert seg == "vi" ==> HasPrefix(p, Vi);
      }
    }
  }
}
