/** The database's enumeration of section kinds and its wire names (types/database.ts). */
module SectionTypes {
  import opened Common

  datatype SectionType =
    | TitlePage | ExecutiveSummary | TableOfContents | Introduction | Background
    | Analysis | Findings | Discussion | Methodology | Recommendations | Conclusion
    | Appendix | Exhibit | References | Glossary | Acknowledgments | Custom

  /** The string stored in the `type` column. */
  function Tag(t: SectionType): string {
    match t
    case TitlePage => "title_page"
    case ExecutiveSummary => "executive_summary"
    case TableOfContents => "table_of_contents"
    case Introduction => "introduction"
    case Background => "background"
    case Analysis => "analysis"
    case Findings => "findings"
    case Discussion => "discussion"
    case Methodology => "methodology"
    case Recommendations => "recommendations"
    case Conclusion => "conclusion"
    case Appendix => "appendix"
    case Exhibit => "exhibit"
    case References => "references"
    case Glossary => "glossary"
    case Acknowledgments => "acknowledgments"
    case Custom => "custom"
  }

  /** Reads a column value back; `None` for strings outside the enumeration. */
  function FromTag(s: string): (r: Option<SectionType>)
    ensures r.Some? ==> Tag(r.value) == s
  {
    if s == Tag(TitlePage) then Some(TitlePage)
    else if s == Tag(ExecutiveSummary) then Some(ExecutiveSummary)
    else if s == Tag(TableOfContents) then Some(TableOfContents)
    else if s == Tag(Introduction) then Some(Introduction)
    else if s == Tag(Background) then Some(Background)
    else if s == Tag(Analysis) then Some(Analysis)
    else if s == Tag(Findings) then Some(Findings)
    else if s == Tag(Discussion) then Some(Discussion)
    else if s == Tag(Methodology) then Some(Methodology)
    else if s == Tag(Recommendations) then Some(Recommendations)
    else if s == Tag(Conclusion) then Some(Conclusion)
    else if s == Tag(Appendix) then Some(Appendix)
    else if s == Tag(Exhibit) then Some(Exhibit)
    else if s == Tag(References) then Some(References)
    else if s == Tag(Glossary) then Some(Glossary)
    else if s == Tag(Acknowledgments) then Some(Acknowledgments)
    else if s == Tag(Custom) then Some(Custom)
    else None
  }

  /** Every type survives a write and a read of its column value. */
  lemma TagRoundTrip(t: SectionType)
    ensures FromTag(Tag(t)) == Some(t)
  {
    match t
    case TitlePage =>
    case ExecutiveSummary =>
    case TableOfContents =>
    case Introduction =>
    case Background =>
    case Analysis =>
    case Findings =>
    case Discussion =>
    case Methodology =>
    case Recommendations =>
    case Conclusion =>
    case Appendix =>
    case Exhibit =>
    case References =>
    case Glossary =>
    case Acknowledgments =>
    case Custom =>
  }
}
