/** The shapes the remote service exchanges with the front end, as declared
    by the generated service interface (Candid records and variants). Only
    the shapes are modelled; the service itself is an external collaborator. */
module Backend {

  import opened Wrappers

  /** `Category` enumeration; its TypeScript values are the strings below. */
  datatype Category = Arts | Commerce | Science

  /** `Level` enumeration. */
  datatype Level = Postgraduate | Undergraduate | Doctoral

  type SubjectIdentifier = string
  type TopicIdentifier = string

  /** A course as sent on the wire; `id` and `priceInINR` are Candid `Nat`s. */
  datatype Course = Course(
    id: nat,
    title: string,
    description: string,
    category: Category,
    level: Level,
    subjectId: Option<string>,
    priceInINR: Option<nat>)

  /** A study material: a title and the bytes of an externally stored blob. */
  datatype StudyMaterial = StudyMaterial(title: string, file: seq<bv8>)

  datatype Topic = Topic(title: string, description: string, studyMaterials: seq<StudyMaterial>)

  datatype SubjectContent = SubjectContent(description: string, topics: seq<Topic>)

  /** The string a TypeScript string enum gives a category (`Category.Arts === "Arts"`):
      each category's value is its own member name, and each name belongs
      to exactly one category. */
  function CategoryName(c: Category): (s: string)
    ensures s == "Arts" <==> c == Arts
    ensures s == "Commerce" <==> c == Commerce
    ensures s == "Science" <==> c == Science
  {
    match c
    case Arts => "Arts"
    case Commerce => "Commerce"
    case Science => "Science"
  }

  /** Distinct categories have distinct names, so the name identifies the category. */
  lemma CategoryNameInjective(c1: Category, c2: Category)
    ensures CategoryName(c1) == CategoryName(c2) ==> c1 == c2
  {
  }
}
