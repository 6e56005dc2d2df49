/** The static page table: a constant map from page key to page content,
    served under a case-insensitive key. */
module Pages {
  import opened Common

  datatype Cta = Cta(title: string, description: string, button1Text: string, button2Text: string)

  datatype Page = Page(badge: string, title: string, description: string, cta: Cta)

  const Services: Page := Page(
    "Our Services",
    "Comprehensive Software Solutions",
    "From concept to deployment, we offer end-to-end software development services that drive innovation and deliver measurable results for your business.",
    Cta("Ready to Transform Your Business?",
        "Let's discuss your project requirements and create a custom solution that drives your business forward.",
        "Start Your Project",
        "Schedule Consultation"))

  /** The table's own entries. */
  const Table: map<string, Page> := map["services" := Services]

  /** What GET /:page answers: the page as JSON, or 404 with an error. */
  datatype Response = PageJson(page: Page) | NotFoundError(error: string)

  function StatusOf(r: Response): Code {
    if r.PageJson? then Ok else NotFound
  }

  /** The table holds exactly one page, under the key "services". */
  lemma OnlyServices()
    ensures Table.Keys == {"services"} && Table["services"] == Services
  {
  }

  /** The lookup on the table's own entries, after lower-casing the key. */
  function GetPage(key: string): (r: Option<Page>)
    ensures r.Some? <==> ToLower(key) == "services"
    ensures r.Some? ==> r.value == Services
  {
    var k := ToLower(key);
    if k in Table then Some(Table[k]) else None
  }

  /** GET /:page: the stored page unchanged, or 404 "Page not found". */
  function Serve(key: string): (r: Response)
    ensures r.PageJson? <==> ToLower(key) in Table
    ensures r.PageJson? ==> r.page == Table[ToLower(key)]
    ensures r.NotFoundError? ==> r.error == "Page not found"
  {
    match GetPage(key)
    case Some(p) => PageJson(p)
    case None => NotFoundError("Page not found")
  }

  /** A key and its lower-cased form get the same answer. */
  lemma ServeIgnoresCase(key: string)
    ensures Serve(ToLower(key)) == Serve(key)
  {
    ToLowerIdempotent(key);
  }

  /** Keys that differ only in the case of their letters get the same answer. */
  lemma SameLowerSameAnswer(a: string, b: string)
    requires ToLower(a) == ToLower(b)
    ensures Serve(a) == Serve(b)
  {
  }

  /** "SERVICES" and "Services" find the services page. */
  lemma CapitalsFound()
    ensures Serve("SERVICES") == PageJson(Services)
    ensures Serve("Services") == PageJson(Services)
  {
    assert ToLower("SERVICES") == "services";
    assert ToLower("Services") == "services";
  }

  /** Any other key is 404. */
  lemma UnknownNotFound(key: string)
    requires ToLower(key) != "services"
    ensures StatusOf(Serve(key)) == NotFound && Serve(key) == NotFoundError("Page not found")
  {
    OnlyServices();
  }

  /* ---------------- The lookup as written ---------------- */

  /** The lower-case names an object literal inherits from `Object.prototype`
      (the others, such as `toString`, contain capitals and so can never be
      the result of lower-casing). Both are truthy. */
  const InheritedKeys: set<string> := {"constructor", "__proto__"}

  /** `pages[page]` on the object literal is truthy for the table's own keys
      and for the inherited ones, so the handler answers 200 for both. */
  function ServeAsWritten(key: string): (code: Code)
    ensures code == Ok <==> ToLower(key) in Table || ToLower(key) in InheritedKeys
    ensures code != Ok ==> code == NotFound
  {
    var k := ToLower(key);
    if k in Table || k in InheritedKeys then Ok else NotFound
  }

  /** The two lookups agree on every key except the inherited ones. */
  lemma AsWrittenAgreesElsewhere(key: string)
    requires ToLower(key) !in InheritedKeys
    ensures ServeAsWritten(key) == StatusOf(Serve(key))
  {
  }

  /** "constructor" (or "Constructor") is not a page, yet the handler as
      written answers 200 for it; the own-entry lookup answers 404. */
  lemma InheritedKeyServed()
    ensures ServeAsWritten("Constructor") == Ok
    ensures Serve("Constructor") == NotFoundError("Page not found")
  {
    assert ToLower("Constructor") == "constructor";
  }
}
