/** The listing record ("property") as the backend delivers it, with only the
    fields the listing page, the featured-builder section and the property
    card read. */
module Records {
  import opened Js

  /** A relational field (`category`, `subcategory`, `city`, `builder`): missing,
      `null`, a bare id string, or an embedded object with optional `_id`,
      `name` and `logo`. */
  datatype Ref =
    | Undefined
    | Null
    | Id(s: string)
    | Embedded(id: OptStr, name: OptStr, logo: OptStr)

  /** One listing record. `kind` is the record's `type` field ('builder' for a
      builder project, anything else for a regular property). */
  datatype Property = Property(
    id: OptStr,
    kind: OptStr,
    price: Option<nat>,
    minPrice: Option<nat>,
    maxPrice: Option<nat>,
    category: Ref,
    subcategory: Ref,
    subcategoryName: OptStr,
    city: Ref,
    builder: Ref,
    location: OptStr,
    locality: OptStr,
    propertyAction: OptStr,
    projectName: OptStr,
    title: OptStr,
    wallpaperImage: OptStr,
    displayImage: OptStr,
    projectImages: Option<seq<string>>,
    possessionDate: OptStr)

  predicate IsBuilderProject(p: Property) {
    p.kind == Some("builder")
  }

  /** `ref?.name`: only the embedded-object form has a name. */
  function RefName(r: Ref): OptStr {
    if r.Embedded? then r.name else None
  }

  /** A record with every field absent; the fallback data and the examples start from it. */
  const EmptyRecord := Property(None, None, None, None, None, Undefined, Undefined, None, Undefined, Undefined,
                          None, None, None, None, None, None, None, None, None)
}
