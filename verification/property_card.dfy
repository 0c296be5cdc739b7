/** The listing card: which of a record's fields it shows for its image, title,
    location, price, badge, builder logo, possession date and builder line,
    for builder projects and for regular properties. */
module PropertyCard {
  import opened Js
  import opened Seqs
  import opened Records

  // ---------------------------------------------------------------------------
  // Fallback chains

  /** `cs[0] || cs[1] || …`: the first truthy value, or the last value when
      none is truthy; `undefined` for an empty chain. */
  function Chain(cs: seq<OptStr>): OptStr {
    if |cs| == 0 then None
    else if |cs| == 1 then cs[0]
    else Or(cs[0], Chain(cs[1..]))
  }

  /** A chain is truthy exactly when one of its values is, and then it is the first truthy one. */
  lemma {:induction false} ChainIsFirstTruthy(cs: seq<OptStr>)
    ensures Truthy(Chain(cs)) <==> exists i :: 0 <= i < |cs| && Truthy(cs[i])
    ensures forall i :: IsFirst(cs, i, Truthy) ==> Chain(cs) == cs[i]
  {
    if |cs| > 1 {
      ChainIsFirstTruthy(cs[1..]);
      forall i | IsFirst(cs, i, Truthy) ensures Chain(cs) == cs[i] {
        if i > 0 {
          assert IsFirst(cs[1..], i - 1, Truthy) by {
            forall j | 0 <= j < i - 1 ensures !Truthy(cs[1..][j]) {
              assert cs[1..][j] == cs[j + 1];
            }
          }
        }
      }
      if !Truthy(cs[0]) {
        assert forall i :: 1 <= i < |cs| ==> cs[i] == cs[1..][i - 1];
      }
    }
  }

  /** `images?.[0]`: `undefined` for a missing or empty list. */
  function FirstImage(images: Option<seq<string>>): OptStr {
    if images.Some? && |images.value| > 0 then Some(images.value[0]) else None
  }

  // ---------------------------------------------------------------------------
  // Display fields

  /** `wallpaperImage || displayImage || projectImages?.[0]` for a builder
      project, `displayImage || projectImages?.[0]` otherwise. */
  function DisplayImage(p: Property): (image: OptStr)
    ensures IsBuilderProject(p) && Truthy(p.wallpaperImage) ==> image == p.wallpaperImage
    ensures (IsBuilderProject(p) ==> !Truthy(p.wallpaperImage)) && Truthy(p.displayImage) ==> image == p.displayImage
    ensures (IsBuilderProject(p) ==> !Truthy(p.wallpaperImage)) && !Truthy(p.displayImage) ==>
              image == FirstImage(p.projectImages)
  {
    if IsBuilderProject(p) then Or(Or(p.wallpaperImage, p.displayImage), FirstImage(p.projectImages))
    else Or(p.displayImage, FirstImage(p.projectImages))
  }

  /** The images the card tries, in order. */
  function ImageCandidates(p: Property): seq<OptStr> {
    if IsBuilderProject(p) then [p.wallpaperImage, p.displayImage, FirstImage(p.projectImages)]
    else [p.displayImage, FirstImage(p.projectImages)]
  }

  /** The card shows an image exactly when one of its candidates is truthy, and
      then the first truthy one. */
  lemma DisplayImageIsFirstCandidate(p: Property)
    ensures Truthy(DisplayImage(p)) <==> exists i :: 0 <= i < |ImageCandidates(p)| && Truthy(ImageCandidates(p)[i])
    ensures forall i :: IsFirst(ImageCandidates(p), i, Truthy) ==> DisplayImage(p) == ImageCandidates(p)[i]
  {
    var cs := ImageCandidates(p);
    assert DisplayImage(p) == Chain(cs) by {
      if IsBuilderProject(p) {
        assert cs[1..][1..] == [cs[2]];
        assert Chain(cs[1..]) == Or(cs[1], cs[2]);
      } else {
        assert cs[1..] == [cs[1]];
      }
    }
    ChainIsFirstTruthy(cs);
  }

  /** `projectName || title` for a builder project, `title` otherwise. */
  function DisplayTitle(p: Property): (r: OptStr)
    ensures IsBuilderProject(p) && Truthy(p.projectName) ==> r == p.projectName
    ensures !(IsBuilderProject(p) && Truthy(p.projectName)) ==> r == p.title
  {
    if IsBuilderProject(p) then Or(p.projectName, p.title) else p.title
  }

  /** `city?.name || location || locality`. */
  function DisplayLocation(p: Property): (location: OptStr)
    ensures Truthy(RefName(p.city)) ==> location == RefName(p.city)
    ensures !Truthy(RefName(p.city)) && Truthy(p.location) ==> location == p.location
    ensures !Truthy(RefName(p.city)) && !Truthy(p.location) ==> location == p.locality
  {
    Or(Or(RefName(p.city), p.location), p.locality)
  }

  /** The location is falsy only when all three sources are, and otherwise the first truthy one. */
  lemma DisplayLocationIsFirstTruthy(p: Property)
    ensures Truthy(DisplayLocation(p)) <==> exists i :: 0 <= i < 3 && Truthy(LocationCandidates(p)[i])
    ensures forall i :: IsFirst(LocationCandidates(p), i, Truthy) ==> DisplayLocation(p) == LocationCandidates(p)[i]
  {
    var cs := LocationCandidates(p);
    assert DisplayLocation(p) == Chain(cs) by {
      assert cs[1..][1..] == [cs[2]];
      assert Chain(cs[1..]) == Or(cs[1], cs[2]);
    }
    ChainIsFirstTruthy(cs);
  }

  /** The location sources the card tries, in order. */
  function LocationCandidates(p: Property): seq<OptStr> {
    [RefName(p.city), p.location, p.locality]
  }

  /** The price line: a range from `minPrice` to `maxPrice` for a builder
      project, the single `price` otherwise; an absent number renders as
      `undefined`. */
  datatype PriceLine = PriceRange(min: Option<nat>, max: Option<nat>) | SinglePrice(price: Option<nat>)

  function DisplayPrice(p: Property): (r: PriceLine)
    ensures r.PriceRange? <==> IsBuilderProject(p)
    ensures r.PriceRange? ==> r.min == p.minPrice && r.max == p.maxPrice
    ensures r.SinglePrice? ==> r.price == p.price
  {
    if IsBuilderProject(p) then PriceRange(p.minPrice, p.maxPrice) else SinglePrice(p.price)
  }

  /** The badge colour: green for a sale, blue for anything else, a missing action included. */
  function BadgeClass(action: OptStr): (c: string)
    ensures c == "bg-success" <==> action == Some("Sale")
    ensures c == "bg-success" || c == "bg-primary"
  {
    if action == Some("Sale") then "bg-success" else "bg-primary"
  }

  /** `builder?.name || 'Builder Project'`. */
  function BuilderLine(p: Property): (r: string)
    ensures r != ""
    ensures Truthy(RefName(p.builder)) ==> r == RefName(p.builder).value
    ensures !Truthy(RefName(p.builder)) ==> r == "Builder Project"
  {
    Or(RefName(p.builder), Some("Builder Project")).value
  }

  /** `builder?.logo`: only an embedded builder has one. */
  function BuilderLogo(b: Ref): OptStr {
    if b.Embedded? then b.logo else None
  }

  // ---------------------------------------------------------------------------
  // The card

  /** What the card renders; an absent part is `None`. */
  datatype Card = Card(
    href: string,
    image: OptStr,
    title: OptStr,
    location: OptStr,
    price: PriceLine,
    badge: string,
    action: OptStr,
    logo: OptStr,
    possession: OptStr,
    subcategory: OptStr,
    builderLine: OptStr)

  /** `` `/properties/${property._id}` ``. */
  function Href(p: Property): string {
    "/properties/" + (if p.id.Some? then p.id.value else "undefined")
  }

  /** The card for `property`, nothing for a falsy property. */
  function RenderCard(property: Option<Property>, showBuilder: bool): (c: Option<Card>)
    ensures c.None? <==> property.None?
  {
    match property
    case None => None
    case Some(p) =>
      var builder := IsBuilderProject(p);
      var image := DisplayImage(p);
      var logo := BuilderLogo(p.builder);
      Some(Card(
        Href(p),
        if Truthy(image) then image else None,
        DisplayTitle(p),
        DisplayLocation(p),
        DisplayPrice(p),
        BadgeClass(p.propertyAction),
        p.propertyAction,
        if builder && Truthy(logo) && showBuilder then logo else None,
        if builder && Truthy(p.possessionDate) then p.possessionDate else None,
        p.subcategoryName,
        if builder && showBuilder then Some(BuilderLine(p)) else None))
  }

  /** The builder parts of a card: the logo needs a builder project, a truthy
      logo and `showBuilder`; the builder line needs a builder project and
      `showBuilder`, and is never empty; the possession date needs a builder
      project and a truthy date. */
  lemma BuilderParts(p: Property, showBuilder: bool)
    ensures RenderCard(Some(p), showBuilder).value.logo.Some? <==>
      IsBuilderProject(p) && Truthy(BuilderLogo(p.builder)) && showBuilder
    ensures RenderCard(Some(p), showBuilder).value.builderLine.Some? <==> IsBuilderProject(p) && showBuilder
    ensures RenderCard(Some(p), showBuilder).value.builderLine.Some? ==> RenderCard(Some(p), showBuilder).value.builderLine.value != ""
    ensures RenderCard(Some(p), showBuilder).value.possession.Some? <==> IsBuilderProject(p) && Truthy(p.possessionDate)
  {
  }

  /** The card shows an image exactly when one of the candidates is truthy. */
  lemma CardImage(p: Property, showBuilder: bool)
    ensures RenderCard(Some(p), showBuilder).value.image.Some? <==>
      exists i :: 0 <= i < |ImageCandidates(p)| && Truthy(ImageCandidates(p)[i])
  {
    DisplayImageIsFirstCandidate(p);
  }

  /** `showBuilder = false` hides the logo and the builder line and nothing else. */
  lemma HidingTheBuilder(p: Property)
    ensures RenderCard(Some(p), false) == Some(RenderCard(Some(p), true).value.(logo := None, builderLine := None))
  {
  }

  /** A regular property's card does not depend on the builder-project fields. */
  lemma RegularCardIgnoresProjectFields(p: Property, wallpaper: OptStr, name: OptStr, builder: Ref, possession: OptStr,
                                        min: Option<nat>, max: Option<nat>, showBuilder: bool)
    requires !IsBuilderProject(p)
    ensures var q := p.(wallpaperImage := wallpaper, projectName := name, builder := builder,
                        possessionDate := possession, minPrice := min, maxPrice := max);
            RenderCard(Some(q), showBuilder) == RenderCard(Some(p), showBuilder)
  {
  }
}
