/**
 * The sitemap endpoint (src/pages/sitemap.xml.ts): a fixed page table expanded
 * into one `<url>` entry per page and language, in the format of the Sitemaps
 * protocol 0.9 with `xhtml:link` hreflang alternates.  Priorities are whole
 * tenths; the date of `lastmod` is a parameter.
 */
module Sitemap {
  import opened Wrappers
  import opened Text
  import opened I18n

  /** One row of the page table; `priority` is in tenths (`'0.8'` is 8). */
  datatype Page = Page(path: string, changefreq: string, priority: nat)

  const Pages: seq<Page> := [
    Page("/", "weekly", 10),
    Page("/guides", "weekly", 9),
    Page("/guides/commands", "monthly", 8),
    Page("/guides/workflows", "monthly", 8),
    Page("/guides/uiux", "monthly", 8),
    Page("/guides/ccs", "monthly", 8),
    Page("/guides/permissions", "monthly", 7),
    Page("/guides/fix-logs", "monthly", 7),
    Page("/guides/session-recovery", "monthly", 7)
  ]

  const DefaultSiteUrl: string := "https://vividkit.com"

  /** `import.meta.env.PUBLIC_SITE_URL || 'https://vividkit.com'`. */
  function SiteUrl(configured: Option<string>): (url: string)
    ensures configured.Some? && configured.value != "" ==> url == configured.value
    ensures configured.None? || configured.value == "" ==> url == DefaultSiteUrl
    ensures url != ""
  {
    if configured.Some? && configured.value != "" then configured.value else DefaultSiteUrl
  }

  /** An `xhtml:link rel="alternate"` element. */
  datatype Alternate = Alternate(hreflang: string, href: string)

  /** A `<url>` element; `priority` in tenths. */
  datatype UrlEntry = UrlEntry(loc: string, lastmod: string, changefreq: string, priority: nat,
                               alternates: seq<Alternate>)

  /** The three alternates every entry of a page carries. */
  function Alternates(siteUrl: string, path: string): seq<Alternate> {
    [Alternate("en", siteUrl + path),
     Alternate("vi", siteUrl + "/vi" + path),
     Alternate("x-default", siteUrl + path)]
  }

  /** `(Number(priority) * 0.9).toFixed(1)`, in tenths: nine tenths of the value,
      rounded to the nearest tenth. */
  function ScaledPriority(tenths: nat): (r: nat)
    ensures r <= tenths
    ensures 10 * r <= 9 * tenths + 5 < 10 * r + 10
  {
    (9 * tenths + 5) / 10
  }

  function EnglishEntry(siteUrl: string, lastmod: string, page: Page): UrlEntry {
    UrlEntry(siteUrl + page.path, lastmod, page.changefreq, page.priority, Alternates(siteUrl, page.path))
  }

  function VietnameseEntry(siteUrl: string, lastmod: string, page: Page): UrlEntry {
    UrlEntry(siteUrl + "/vi" + page.path, lastmod, page.changefreq, ScaledPriority(page.priority),
             Alternates(siteUrl, page.path))
  }

  /** `pages.flatMap(page => [english, vietnamese])`. */
  function Entries(siteUrl: string, lastmod: string, pages: seq<Page>): (es: seq<UrlEntry>)
    ensures |es| == 2 * |pages|
    ensures forall i :: 0 <= i < |pages| ==>
              es[2 * i] == EnglishEntry(siteUrl, lastmod, pages[i]) &&
              es[2 * i + 1] == VietnameseEntry(siteUrl, lastmod, pages[i])
  {
    if |pages| == 0 then []
    else
      [EnglishEntry(siteUrl, lastmod, pages[0]), VietnameseEntry(siteUrl, lastmod, pages[0])] +
      Entries(siteUrl, lastmod, pages[1..])
  }

  /** Expanding a concatenation of page tables concatenates the expansions: the
      entries follow the table order. */
  lemma {:induction false} EntriesAppend(siteUrl: string, lastmod: string, p1: seq<Page>, p2: seq<Page>)
    ensures Entries(siteUrl, lastmod, p1 + p2) == Entries(siteUrl, lastmod, p1) + Entries(siteUrl, lastmod, p2)
  {
    if |p1| == 0 {
      assert p1 + p2 == p2;
    } else {
      assert (p1 + p2)[1..] == p1[1..] + p2;
      EntriesAppend(siteUrl, lastmod, p1[1..], p2);
    }
  }

  // ---------------------------------------------------------------------------
  // Rendering

  /** A priority in tenths as the source writes it: one digit after the point. */
  function PriorityText(tenths: nat): string {
    NatToString(tenths / 10) + "." + [DigitChar(tenths % 10)]
  }

  function AlternateText(a: Alternate): string {
    "    <xhtml:link rel=\"alternate\" hreflang=\"" + a.hreflang + "\" href=\"" + a.href + "\" />\n"
  }

  function AlternatesText(alts: seq<Alternate>): string {
    if |alts| == 0 then "" else AlternateText(alts[0]) + AlternatesText(alts[1..])
  }

  /** The template literal of one entry. */
  function EntryText(e: UrlEntry): string {
    "  <url>\n" +
    "    <loc>" + e.loc + "</loc>\n" +
    "    <lastmod>" + e.lastmod + "</lastmod>\n" +
    "    <changefreq>" + e.changefreq + "</changefreq>\n" +
    "    <priority>" + PriorityText(e.priority) + "</priority>\n" +
    AlternatesText(e.alternates) +
    "  </url>"
  }

  function EntryTexts(es: seq<UrlEntry>): (ts: seq<string>)
    ensures |ts| == |es| && forall i :: 0 <= i < |es| ==> ts[i] == EntryText(es[i])
  {
    if |es| == 0 then [] else [EntryText(es[0])] + EntryTexts(es[1..])
  }

  /** `Array.prototype.join`. */
  function Join(parts: seq<string>, sep: string): string {
    if |parts| == 0 then ""
    else if |parts| == 1 then parts[0]
    else parts[0] + sep + Join(parts[1..], sep)
  }

  /** Where part `i` begins in a join: after every earlier part, each followed
      by one separator. */
  function PartStart(parts: seq<string>, sep: string, i: nat): nat
    requires i <= |parts|
  {
    if i == 0 then 0 else PartStart(parts, sep, i - 1) + |parts[i - 1]| + |sep|
  }

  /** Counting from the second part on: the first part and its separator come
      before all the others. */
  lemma {:induction false} PartStartShift(parts: seq<string>, sep: string, i: nat)
    requires 1 <= i <= |parts|
    ensures PartStart(parts, sep, i) == |parts[0]| + |sep| + PartStart(parts[1..], sep, i - 1)
  {
    if i > 1 {
      PartStartShift(parts, sep, i - 1);
    }
  }

  /** Part `i` stands in `text` at its start. */
  predicate PartAt(text: string, parts: seq<string>, sep: string, i: nat)
    requires i < |parts|
  {
    PartStart(parts, sep, i) + |parts[i]| <= |text| &&
    text[PartStart(parts, sep, i)..PartStart(parts, sep, i) + |parts[i]|] == parts[i]
  }

  /** One separator stands in `text` between part `i` and part `i + 1`. */
  predicate SeparatorAt(text: string, parts: seq<string>, sep: string, i: nat)
    requires i + 1 < |parts|
  {
    PartStart(parts, sep, i) + |parts[i]| <= PartStart(parts, sep, i + 1) <= |text| &&
    text[PartStart(parts, sep, i) + |parts[i]|..PartStart(parts, sep, i + 1)] == sep
  }

  /** The text of a join: the parts in order, one separator between neighbours
      and nothing else. */
  predicate LaidOut(text: string, parts: seq<string>, sep: string) {
    (|parts| == 0 ==> text == "") &&
    (|parts| > 0 ==> |text| == PartStart(parts, sep, |parts| - 1) + |parts[|parts| - 1]|) &&
    (forall i: nat :: i < |parts| ==> PartAt(text, parts, sep, i)) &&
    (forall i: nat :: i + 1 < |parts| ==> SeparatorAt(text, parts, sep, i))
  }

  /** A slice lying in the second half of a concatenation is a slice of that half. */
  lemma SliceOfSecond(a: string, b: string, lo: nat, hi: nat)
    requires |a| <= lo <= hi <= |a| + |b|
    ensures (a + b)[lo..hi] == b[lo - |a|..hi - |a|]
  {
    assert forall k :: 0 <= k < hi - lo ==> (a + b)[lo..hi][k] == b[lo - |a|..hi - |a|][k];
  }

  /** Part `i` of a join stands at its start. */
  lemma {:induction false} JoinPart(parts: seq<string>, sep: string, i: nat)
    requires i < |parts|
    ensures PartStart(parts, sep, i) + |parts[i]| <= |Join(parts, sep)|
    ensures Join(parts, sep)[PartStart(parts, sep, i)..PartStart(parts, sep, i) + |parts[i]|] == parts[i]
    decreases i
  {
    var text := Join(parts, sep);
    if i == 0 {
      if |parts| > 1 {
        assert text == parts[0] + (sep + Join(parts[1..], sep));
      }
      assert text[..|parts[0]|] == parts[0];
    } else {
      var rest := parts[1..];
      var head := parts[0] + sep;
      assert text == head + Join(rest, sep);
      JoinPart(rest, sep, i - 1);
      PartStartShift(parts, sep, i);
      assert rest[i - 1] == parts[i];
      var ps := PartStart(parts, sep, i);
      SliceOfSecond(head, Join(rest, sep), ps, ps + |parts[i]|);
    }
  }

  /** Between part `i` and part `i + 1` of a join stands one separator. */
  lemma {:induction false} JoinSeparator(parts: seq<string>, sep: string, i: nat)
    requires i + 1 < |parts|
    ensures PartStart(parts, sep, i) + |parts[i]| <= PartStart(parts, sep, i + 1) <= |Join(parts, sep)|
    ensures Join(parts, sep)[PartStart(parts, sep, i) + |parts[i]|..PartStart(parts, sep, i + 1)] == sep
    decreases i
  {
    var text := Join(parts, sep);
    var rest := parts[1..];
    var head := parts[0] + sep;
    assert text == head + Join(rest, sep);
    JoinPart(parts, sep, i + 1);
    if i == 0 {
      assert text[|parts[0]|..|head|] == sep;
    } else {
      JoinSeparator(rest, sep, i - 1);
      PartStartShift(parts, sep, i);
      PartStartShift(parts, sep, i + 1);
      assert rest[i - 1] == parts[i];
      SliceOfSecond(head, Join(rest, sep), PartStart(parts, sep, i) + |parts[i]|, PartStart(parts, sep, i + 1));
    }
  }

  /** A join ends with its last part. */
  lemma {:induction false} JoinLength(parts: seq<string>, sep: string)
    requires |parts| > 0
    ensures |Join(parts, sep)| == PartStart(parts, sep, |parts| - 1) + |parts[|parts| - 1]|
    decreases |parts|
  {
    if |parts| > 1 {
      JoinLength(parts[1..], sep);
      PartStartShift(parts, sep, |parts| - 1);
    }
  }

  /** `join` lays out its parts. */
  lemma JoinLayout(parts: seq<string>, sep: string)
    ensures LaidOut(Join(parts, sep), parts, sep)
  {
    forall i: nat | i < |parts| ensures PartAt(Join(parts, sep), parts, sep, i) {
      JoinPart(parts, sep, i);
    }
    forall i: nat | i + 1 < |parts| ensures SeparatorAt(Join(parts, sep), parts, sep, i) {
      JoinSeparator(parts, sep, i);
    }
    if |parts| > 0 {
      JoinLength(parts, sep);
    }
  }

  /** Between the header and the footer of a document lies its body. */
  lemma DocumentBody(body: string)
    ensures var xml := XmlHeader + body + XmlFooter;
      |XmlHeader| + |XmlFooter| <= |xml| && xml[|XmlHeader|..|xml| - |XmlFooter|] == body &&
      XmlHeader <= xml && xml[|xml| - |XmlFooter|..] == XmlFooter
  {
    var xml := XmlHeader + body + XmlFooter;
    assert xml == XmlHeader + (body + XmlFooter);
    SliceOfSecond(XmlHeader, body + XmlFooter, |XmlHeader|, |xml| - |XmlFooter|);
    assert (body + XmlFooter)[..|body|] == body;
    SliceOfSecond(XmlHeader + body, XmlFooter, |xml| - |XmlFooter|, |xml|);
  }

  /** A document whose body joins `parts` with line breaks has them laid out
      between its header and its footer. */
  lemma Document(parts: seq<string>)
    ensures var xml := XmlHeader + Join(parts, "\n") + XmlFooter;
      XmlHeader <= xml &&
      |XmlHeader| + |XmlFooter| <= |xml| && xml[|xml| - |XmlFooter|..] == XmlFooter &&
      LaidOut(xml[|XmlHeader|..|xml| - |XmlFooter|], parts, "\n")
  {
    JoinLayout(parts, "\n");
    DocumentBody(Join(parts, "\n"));
  }

  const XmlHeader: string :=
    "<?xml version=\"1.0\" encoding=\"UTF-8\"?>\n" +
    "<urlset xmlns=\"http://www.sitemaps.org/schemas/sitemap/0.9\"\n" +
    "        xmlns:xhtml=\"http://www.w3.org/1999/xhtml\">\n"

  const XmlFooter: string := "\n</urlset>"

  /** The body of the `GET /sitemap.xml` response: between the header and the
      footer, the text of each entry in table order, one line break between
      neighbours. */
  function SitemapXml(configuredSiteUrl: Option<string>, lastmod: string): (xml: string)
    ensures XmlHeader <= xml
    ensures |XmlHeader| + |XmlFooter| <= |xml| && xml[|xml| - |XmlFooter|..] == XmlFooter
    ensures LaidOut(xml[|XmlHeader|..|xml| - |XmlFooter|],
                    EntryTexts(Entries(SiteUrl(configuredSiteUrl), lastmod, Pages)), "\n")
  {
    var texts := EntryTexts(Entries(SiteUrl(configuredSiteUrl), lastmod, Pages));
    Document(texts);
    XmlHeader + Join(texts, "\n") + XmlFooter
  }

  // ---------------------------------------------------------------------------
  // Properties of the table and its expansion

  /** The English priorities render as the table's strings, and the scaled ones as
      the four values the floating-point expression produces for them. */
  lemma PriorityValues()
    ensures PriorityText(10) == "1.0" && PriorityText(9) == "0.9"
    ensures PriorityText(8) == "0.8" && PriorityText(7) == "0.7"
    ensures ScaledPriority(10) == 9 && ScaledPriority(9) == 8
    ensures ScaledPriority(8) == 7 && ScaledPriority(7) == 6
    ensures PriorityText(6) == "0.6"
  {
  }

  /** Every table path is rooted and carries no language prefix. */
  lemma TablePathsUnprefixed()
    ensures forall p :: p in Pages ==> "/" <= p.path && Unprefixed(p.path)
  {
    forall p | p in Pages ensures "/" <= p.path && Unprefixed(p.path) {
      assert |p.path| < 3 || p.path[1] == 'g';
      UnprefixedByFirstLetter(p.path);
    }
  }

  /** The two entries of one page: same date, frequency and alternates; the
      English `loc` is the path under the site, the Vietnamese one is the path
      `translatePath` gives for Vietnamese; the alternates name both and make the
      English one the `x-default`. */
  lemma {:induction false} PagePair(siteUrl: string, lastmod: string, page: Page)
    requires "/" <= page.path && Unprefixed(page.path)
    ensures EnglishEntry(siteUrl, lastmod, page).loc == siteUrl + Translated(page.path, En)
    ensures VietnameseEntry(siteUrl, lastmod, page).loc == siteUrl + Translated(page.path, Vi)
    ensures EnglishEntry(siteUrl, lastmod, page).alternates == VietnameseEntry(siteUrl, lastmod, page).alternates
    ensures var alts := EnglishEntry(siteUrl, lastmod, page).alternates;
      |alts| == 3 &&
      alts[0] == Alternate("en", EnglishEntry(siteUrl, lastmod, page).loc) &&
      alts[1] == Alternate("vi", VietnameseEntry(siteUrl, lastmod, page).loc) &&
      alts[2] == Alternate("x-default", EnglishEntry(siteUrl, lastmod, page).loc)
  {
    UnprefixedUnchanged(page.path);
  }

  /** Every table priority is within the protocol's range of 0.0 to 1.0. */
  lemma TablePrioritiesInRange()
    ensures forall k :: 0 <= k < |Pages| ==> Pages[k].priority <= 10
  {
  }

  /** The sitemap has 18 entries, two per page in table order, English first;
      both copy the page's `changefreq`, and the Vietnamese one scales the
      priority by nine tenths. */
  lemma SitemapFields(siteUrl: string, lastmod: string)
    ensures var es := Entries(siteUrl, lastmod, Pages);
      |es| == 18 &&
      forall i :: 0 <= i < |Pages| ==>
        es[2 * i].changefreq == es[2 * i + 1].changefreq == Pages[i].changefreq &&
        es[2 * i].priority == Pages[i].priority &&
        es[2 * i + 1].priority == ScaledPriority(Pages[i].priority)
  {
  }

  /** All entries share one `lastmod` and keep the priority within the
      protocol's range of 0.0 to 1.0. */
  lemma SitemapDatesAndRange(siteUrl: string, lastmod: string)
    ensures var es := Entries(siteUrl, lastmod, Pages);
      forall i :: 0 <= i < |es| ==> es[i].lastmod == lastmod && es[i].priority <= 10
  {
    TablePrioritiesInRange();
    EntriesInRange(siteUrl, lastmod, Pages);
  }

  /** Expanding a table whose priorities are in range gives entries in range,
      all dated `lastmod`. */
  lemma EntriesInRange(siteUrl: string, lastmod: string, pages: seq<Page>)
    requires forall k :: 0 <= k < |pages| ==> pages[k].priority <= 10
    ensures var es := Entries(siteUrl, lastmod, pages);
      forall i :: 0 <= i < |es| ==> es[i].lastmod == lastmod && es[i].priority <= 10
  {
    var es := Entries(siteUrl, lastmod, pages);
    forall i | 0 <= i < |es| ensures es[i].lastmod == lastmod && es[i].priority <= 10 {
      var k := i / 2;
      assert pages[k].priority <= 10;
      if i == 2 * k {
        assert es[i] == EnglishEntry(siteUrl, lastmod, pages[k]);
      } else {
        assert es[i] == VietnameseEntry(siteUrl, lastmod, pages[k]);
      }
    }
  }

  /** The `loc` of each page's English entry is the path under the site, and that
      of its Vietnamese entry the path `translatePath` gives for Vietnamese. */
  lemma SitemapLocations(siteUrl: string, lastmod: string)
    ensures var es := Entries(siteUrl, lastmod, Pages);
      |es| == 2 * |Pages| &&
      forall i :: 0 <= i < |Pages| ==>
        es[2 * i].loc == siteUrl + Translated(Pages[i].path, En) &&
        es[2 * i + 1].loc == siteUrl + Translated(Pages[i].path, Vi)
  {
    var es := Entries(siteUrl, lastmod, Pages);
    TablePathsUnprefixed();
    forall i | 0 <= i < |Pages|
      ensures es[2 * i].loc == siteUrl + Translated(Pages[i].path, En)
      ensures es[2 * i + 1].loc == siteUrl + Translated(Pages[i].path, Vi)
    {
      assert Pages[i] in Pages;
      PagePair(siteUrl, lastmod, Pages[i]);
    }
  }
}
