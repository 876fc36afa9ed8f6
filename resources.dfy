/** The resource record passed into the carousel and its cards, and the closed
    enumerations the components are typed over. */
module Resources {

  /** The kind of a learning resource; `Name` is the string tag the components compare against. */
  datatype ResourceType = Video | Audio | Pdf {
    function Name(): string {
      match this
      case Video => "video"
      case Audio => "audio"
      case Pdf => "pdf"
    }
  }

  /** How hard a resource is; `Name` is its string tag. */
  datatype Difficulty = Beginner | Intermediate | Advanced {
    function Name(): string {
      match this
      case Beginner => "beginner"
      case Intermediate => "intermediate"
      case Advanced => "advanced"
    }
  }

  /** The accent palette both components take as a prop; `Name` is the key of their colour maps. */
  datatype Accent = Violet | Purple | Indigo {
    function Name(): string {
      match this
      case Violet => "violet"
      case Purple => "purple"
      case Indigo => "indigo"
    }
  }

  /** One catalogued resource. The optional embed and download URLs are never read by the
      components and are not part of the record. */
  datatype Resource = Resource(
    id: string,
    title: string,
    description: string,
    kind: ResourceType,
    thumbnail: string,
    duration: string,
    rating: real,
    category: string,
    languages: seq<string>,
    tags: seq<string>,
    difficulty: Difficulty,
    url: string)
}
