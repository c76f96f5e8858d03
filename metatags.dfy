/**
 * The SEO extension's meta tag generator: from the SEO fields of a page
 * record (and the image files attached to its `og_image` and
 * `twitter_image` relations) it adds description, Open Graph, Twitter and
 * robots meta tags to the page through the meta tag registry.
 *
 * The registry with its per-property managers is one append-only log of
 * emissions. The image pipeline (file collection, crop areas, image
 * processing and URI generation) is foreign code, given as the functions of
 * an `ImageBackend`.
 */
module SeoMetaTags {

  // ---------------------------------------------------------------------
  // Page record values

  /** A scalar of a page or file record as PHP sees it. */
  datatype PhpValue = Null | Bool(b: bool) | Int(i: int) | Str(s: string)

  /** PHP truthiness: `empty($v)` is its negation. null, false, 0, '' and '0' are empty. */
  predicate Truthy(v: PhpValue)
  {
    match v
    case Null => false
    case Bool(b) => b
    case Int(i) => i != 0
    case Str(s) => s != "" && s != "0"
  }

  /** The values `empty()` holds of are exactly null, false, 0, '' and '0'; every other value is truthy. */
  lemma EmptyValues(v: PhpValue)
    ensures !Truthy(v) <==> v in {Null, Bool(false), Int(0), Str(""), Str("0")}
  {
    match v
    case Null =>
    case Bool(b) =>
    case Int(i) =>
    case Str(s) =>
      if s != "" && s != "0" {
        assert Str(s) != Str("") && Str(s) != Str("0");
      }
  }

  /**
   * The columns of the page record that `generate` reads. A column the
   * record lacks reads as null, as a missing array key does in PHP.
   */
  datatype PageRecord = PageRecord(
    description: PhpValue,
    ogTitle: PhpValue,
    ogDescription: PhpValue,
    ogImage: PhpValue,
    twitterTitle: PhpValue,
    twitterDescription: PhpValue,
    twitterImage: PhpValue,
    twitterCard: PhpValue,
    noIndex: PhpValue,
    noFollow: PhpValue)

  /** The decimal digits of a natural number. */
  function Digits(n: nat): string
    decreases n
  {
    var last := [(('0' as int) + n % 10) as char];
    if n < 10 then last else Digits(n / 10) + last
  }

  /** PHP's `(string)` cast of a scalar. */
  function StringCast(v: PhpValue): string
  {
    match v
    case Null => ""
    case Bool(b) => if b then "1" else ""
    case Int(i) => if i >= 0 then Digits(i) else "-" + Digits(-i)
    case Str(s) => s
  }

  // ---------------------------------------------------------------------
  // Emissions

  /** The meta properties `generate` sets, declared in the order it sets them. */
  datatype Property =
    | Description | OgTitle | OgDescription | OgImage
    | TwitterTitle | TwitterDescription | TwitterImage | TwitterCard | Robots
  {
    /** The meta property name passed to the registry. */
    function Name(): string
    {
      match this
      case Description => "description"
      case OgTitle => "og:title"
      case OgDescription => "og:description"
      case OgImage => "og:image"
      case TwitterTitle => "twitter:title"
      case TwitterDescription => "twitter:description"
      case TwitterImage => "twitter:image"
      case TwitterCard => "twitter:card"
      case Robots => "robots"
    }

    /** The position of this property's tags among all tags `generate` adds. */
    function Rank(): nat
    {
      match this
      case Description => 0
      case OgTitle => 1
      case OgDescription => 2
      case OgImage => 3
      case TwitterTitle => 4
      case TwitterDescription => 5
      case TwitterImage => 6
      case TwitterCard => 7
      case Robots => 8
    }

    /** The property is copied verbatim from one page column. */
    predicate IsText()
    {
      Description? || OgTitle? || OgDescription? || TwitterTitle? || TwitterDescription?
    }

    /** The page column a text property is copied from, as read from `page`. */
    function ValueIn(page: PageRecord): PhpValue
      requires IsText()
    {
      match this
      case Description => page.description
      case OgTitle => page.ogTitle
      case OgDescription => page.ogDescription
      case TwitterTitle => page.twitterTitle
      case TwitterDescription => page.twitterDescription
    }
  }

  /** The keys of an image tag's sub-properties. */
  datatype SubKey = Url | Width | Height | Alt
  {
    function Name(): string
    {
      match this
      case Url => "url"
      case Width => "width"
      case Height => "height"
      case Alt => "alt"
    }
  }

  datatype SubProperty = SubProperty(key: SubKey, value: PhpValue)

  /** One `addProperty(property, content, subProperties)` call on a manager. */
  datatype Emission = Emission(property: Property, content: PhpValue, subProperties: seq<SubProperty>)

  /** The meta tag registry with its managers: the properties added so far, in order. */
  class TagRegistry {
    var emissions: seq<Emission>

    constructor ()
      ensures emissions == []
    {
      emissions := [];
    }

    /** `getManagerForProperty(property)->addProperty(property, content, subProperties)`. */
    method AddProperty(property: Property, content: PhpValue, subProperties: seq<SubProperty>)
      modifies this
      ensures emissions == old(emissions) + [Emission(property, content, subProperties)]
    {
      emissions := emissions + [Emission(property, content, subProperties)];
    }
  }

  // ---------------------------------------------------------------------
  // Social images

  /** A file as the storage layer identifies it. */
  type FileId = nat

  /**
   * A file reference attached to the page: the `alternative`, `crop` and
   * `cropVariant` entries of its merged properties (null when absent), its
   * `width` property and its original file.
   */
  datatype FileReference = FileReference(
    alternative: PhpValue,
    crop: PhpValue,
    cropVariant: PhpValue,
    width: int,
    originalFile: FileId)

  /** The crop area named `variant` in the crop variant collection `collection`. */
  datatype Crop = Crop(collection: string, variant: PhpValue)

  /** The image used for a social tag: the original file, or a crop-and-scale derivative of it. */
  datatype ImageFile =
    | Original(file: FileId)
    | Processed(file: FileId, crop: Crop, maxWidth: int)

  /**
   * The foreign parts of the image pipeline:
   * `CropVariantCollection::create(collection)->getCropArea(variant)->isEmpty()`,
   * `ImageService::getImageUri(image, true)`, and the floored `width` and
   * `height` properties of an image.
   */
  datatype ImageBackend = ImageBackend(
    cropAreaIsEmpty: (string, PhpValue) -> bool,
    imageUri: ImageFile -> string,
    imageWidth: ImageFile -> int,
    imageHeight: ImageFile -> int)

  /** One entry of `generateSocialImages`' result. */
  datatype SocialImage = SocialImage(url: string, width: int, height: int, alternative: PhpValue)

  /** The `maxWidth` of the processing configuration. */
  const MaxWidth := 2000

  /** `(string)($arguments['crop'] ?? '')`: the crop variant collection configuration. */
  function CropCollection(reference: FileReference): (collection: string)
    ensures reference.crop.Null? ==> collection == ""
    ensures reference.crop.Str? ==> collection == reference.crop.s
  {
    var crop := reference.crop;
    StringCast(if crop.Null? then Str("") else crop)
  }

  /**
   * `($arguments['cropVariant'] ?? false) ?: 'social'`: the reference's own
   * crop variant when it names one, and `social` otherwise; never empty.
   */
  function CropVariantName(reference: FileReference): (name: PhpValue)
    ensures Truthy(name)
    ensures Truthy(reference.cropVariant) ==> name == reference.cropVariant
    ensures !Truthy(reference.cropVariant) ==> name == Str("social")
  {
    var cropVariant := reference.cropVariant;
    var named := if cropVariant.Null? then Bool(false) else cropVariant;
    if Truthy(named) then named else Str("social")
  }

  /**
   * `processSocialImage`: always made from the reference's original file;
   * that file unprocessed exactly when the reference is at most `MaxWidth`
   * wide and its crop area is empty, and otherwise cropped to that area and
   * scaled to at most `MaxWidth`.
   */
  function ProcessSocialImage(backend: ImageBackend, reference: FileReference): (image: ImageFile)
    ensures image.file == reference.originalFile
    ensures image.Original? <==>
      reference.width <= MaxWidth
      && backend.cropAreaIsEmpty(CropCollection(reference), CropVariantName(reference))
    ensures image.Processed? ==>
      && image.crop == Crop(CropCollection(reference), CropVariantName(reference))
      && image.maxWidth == MaxWidth
  {
    var collection := CropCollection(reference);
    var cropVariantName := CropVariantName(reference);
    var needsProcessing := reference.width > MaxWidth || !backend.cropAreaIsEmpty(collection, cropVariantName);
    if !needsProcessing then
      Original(reference.originalFile)
    else
      Processed(reference.originalFile, Crop(collection, cropVariantName), MaxWidth)
  }

  /** The social image built for one file reference. */
  function SocialImageOf(backend: ImageBackend, reference: FileReference): SocialImage
  {
    var image := ProcessSocialImage(backend, reference);
    SocialImage(
      backend.imageUri(image),
      backend.imageWidth(image),
      backend.imageHeight(image),
      reference.alternative)
  }

  /** The social images of a list of file references, one per reference, in order. */
  function SocialImages(backend: ImageBackend, references: seq<FileReference>): seq<SocialImage>
  {
    seq(|references|, i requires 0 <= i < |references| => SocialImageOf(backend, references[i]))
  }

  // ---------------------------------------------------------------------
  // The tags `generate` adds, as a specification

  /** A text tag: the column's value under the property, when the column is non-empty. */
  function TextTag(page: PageRecord, p: Property): seq<Emission>
    requires p.IsText()
  {
    if Truthy(p.ValueIn(page)) then [Emission(p, p.ValueIn(page), [])] else []
  }

  /** The sub-properties of an `og:image` tag: url, width, height, and alt when there is an alternative text. */
  function OgSubProperties(image: SocialImage): seq<SubProperty>
  {
    [SubProperty(Url, Str(image.url)), SubProperty(Width, Int(image.width)), SubProperty(Height, Int(image.height))]
    + (if Truthy(image.alternative) then [SubProperty(Alt, image.alternative)] else [])
  }

  /** The sub-properties of a `twitter:image` tag: alt when there is an alternative text. */
  function TwitterSubProperties(image: SocialImage): seq<SubProperty>
  {
    if Truthy(image.alternative) then [SubProperty(Alt, image.alternative)] else []
  }

  /** The tag of one social image: its url, with the sub-properties of an `og:image` or a `twitter:image` tag. */
  function ImageTag(p: Property, image: SocialImage): Emission
  {
    Emission(p, Str(image.url), if p == OgImage then OgSubProperties(image) else TwitterSubProperties(image))
  }

  /** One image tag per social image, in order. */
  function ImageTags(p: Property, images: seq<SocialImage>): seq<Emission>
    requires p == OgImage || p == TwitterImage
  {
    seq(|images|, i requires 0 <= i < |images| => ImageTag(p, images[i]))
  }

  /** The image tags, when the page's relation column is non-empty. */
  function ImageTagsIf(relation: PhpValue, p: Property, images: seq<SocialImage>): seq<Emission>
    requires p == OgImage || p == TwitterImage
  {
    if Truthy(relation) then ImageTags(p, images) else []
  }

  /** The `og:title`, `og:description` and `og:image` tags. */
  function OpenGraphTags(page: PageRecord, ogImages: seq<SocialImage>): seq<Emission>
  {
    TextTag(page, OgTitle) + TextTag(page, OgDescription) + ImageTagsIf(page.ogImage, OgImage, ogImages)
  }

  /** The `twitter:title`, `twitter:description` and `twitter:image` tags. */
  function TwitterTags(page: PageRecord, twitterImages: seq<SocialImage>): seq<Emission>
  {
    TextTag(page, TwitterTitle) + TextTag(page, TwitterDescription)
    + ImageTagsIf(page.twitterImage, TwitterImage, twitterImages)
  }

  /** Some Twitter tag other than the card is added: a title, a description, or an image. */
  predicate TwitterCardRequired(page: PageRecord, twitterImages: seq<SocialImage>)
  {
    || Truthy(page.twitterTitle)
    || Truthy(page.twitterDescription)
    || (Truthy(page.twitterImage) && |twitterImages| > 0)
  }

  /** The `twitter:card` tag: the page's card type, else `summary` when another Twitter tag is added. */
  function CardTag(page: PageRecord, required: bool): seq<Emission>
  {
    var card := page.twitterCard;
    var twitterCard := if Truthy(card) then card else if required then Str("summary") else Str("");
    if Truthy(twitterCard) then [Emission(TwitterCard, twitterCard, [])] else []
  }

  /** `implode(',', [$noIndex, $noFollow])`: the `robots` value for the two flags. */
  function RobotsValue(noIndex: bool, noFollow: bool): string
  {
    (if noIndex then "noindex" else "index") + "," + (if noFollow then "nofollow" else "follow")
  }

  /** The three `robots` values that can be added; none of them is `index,follow`. */
  lemma RobotsValues(noIndex: bool, noFollow: bool)
    requires noIndex || noFollow
    ensures noIndex && noFollow ==> RobotsValue(noIndex, noFollow) == "noindex,nofollow"
    ensures noIndex && !noFollow ==> RobotsValue(noIndex, noFollow) == "noindex,follow"
    ensures !noIndex && noFollow ==> RobotsValue(noIndex, noFollow) == "index,nofollow"
    ensures RobotsValue(noIndex, noFollow) != "index,follow"
  {
    assert |RobotsValue(noIndex, noFollow)| != |"index,follow"|;
  }

  /** The `robots` tag, added when the page is excluded from indexing or from link following. */
  function RobotsTag(page: PageRecord): seq<Emission>
  {
    var noIndex := Truthy(page.noIndex);
    var noFollow := Truthy(page.noFollow);
    if noIndex || noFollow then [Emission(Robots, Str(RobotsValue(noIndex, noFollow)), [])] else []
  }

  /** Everything `generate` adds for a page, given the social images of its two image relations. */
  function Emissions(page: PageRecord, ogImages: seq<SocialImage>, twitterImages: seq<SocialImage>): seq<Emission>
  {
    TextTag(page, Description)
    + OpenGraphTags(page, ogImages)
    + TwitterTags(page, twitterImages)
    + CardTag(page, TwitterCardRequired(page, twitterImages))
    + RobotsTag(page)
  }

  /** Appending three segments one after another appends their concatenation. It proves unaided; stating it separately keeps the callers' proofs small. */
  lemma AppendThree<T>(s: seq<T>, a: seq<T>, b: seq<T>, c: seq<T>)
    ensures s + a + b + c == s + (a + b + c)
  {
  }

  /** Appending five segments one after another appends their concatenation. It proves unaided; stating it separately keeps the callers' proofs small. */
  lemma AppendFive<T>(s: seq<T>, a: seq<T>, b: seq<T>, c: seq<T>, d: seq<T>, e: seq<T>)
    ensures s + a + b + c + d + e == s + (a + b + c + d + e)
  {
  }

  // ---------------------------------------------------------------------
  // What the tags of a page are

  /** The emissions of one property, in order. */
  function WithProperty(es: seq<Emission>, p: Property): seq<Emission>
  {
    if es == [] then []
    else
      var last := es[|es| - 1];
      WithProperty(es[..|es| - 1], p) + (if last.property == p then [last] else [])
  }

  lemma {:induction false} WithPropertyAppend(a: seq<Emission>, b: seq<Emission>, p: Property)
    ensures WithProperty(a + b, p) == WithProperty(a, p) + WithProperty(b, p)
  {
    if b != [] {
      var n := |b| - 1;
      var tail := if b[n].property == p then [b[n]] else [];
      assert (a + b)[..|a + b| - 1] == a + b[..n];
      assert (a + b)[|a + b| - 1] == b[n];
      calc {
        WithProperty(a + b, p);
        WithProperty(a + b[..n], p) + tail;
        { WithPropertyAppend(a, b[..n], p); }
        WithProperty(a, p) + WithProperty(b[..n], p) + tail;
        WithProperty(a, p) + (WithProperty(b[..n], p) + tail);
        WithProperty(a, p) + WithProperty(b, p);
      }
    } else {
      assert a + b == a;
    }
  }

  /** Every emission of `s` is of property `q`. */
  predicate AllOf(s: seq<Emission>, q: Property)
  {
    forall i | 0 <= i < |s| :: s[i].property == q
  }

  /** A run of emissions of one property `q` holds all of `q`'s emissions and none of any other. */
  lemma {:induction false} WithPropertyUniform(s: seq<Emission>, q: Property, p: Property)
    requires AllOf(s, q)
    ensures WithProperty(s, p) == if p == q then s else []
  {
    if s != [] {
      var n := |s| - 1;
      var init := s[..n];
      assert AllOf(init, q);
      WithPropertyUniform(init, q, p);
      assert WithProperty(s, p) == WithProperty(init, p) + (if p == q then [s[n]] else []);
      if p == q {
        assert init + [s[n]] == s;
      } else {
        assert WithProperty(s, p) == [] + [];
      }
    }
  }

  /** The run of tags `generate` adds for property `p`. */
  function Segment(page: PageRecord, ogImages: seq<SocialImage>, twitterImages: seq<SocialImage>, p: Property): seq<Emission>
  {
    match p
    case Description => TextTag(page, Description)
    case OgTitle => TextTag(page, OgTitle)
    case OgDescription => TextTag(page, OgDescription)
    case OgImage => ImageTagsIf(page.ogImage, OgImage, ogImages)
    case TwitterTitle => TextTag(page, TwitterTitle)
    case TwitterDescription => TextTag(page, TwitterDescription)
    case TwitterImage => ImageTagsIf(page.twitterImage, TwitterImage, twitterImages)
    case TwitterCard => CardTag(page, TwitterCardRequired(page, twitterImages))
    case Robots => RobotsTag(page)
  }

  /** Every tag of a segment has the segment's property. It proves unaided; stating it separately keeps the callers' proofs small. */
  lemma SegmentUniform(page: PageRecord, ogImages: seq<SocialImage>, twitterImages: seq<SocialImage>, q: Property)
    ensures AllOf(Segment(page, ogImages, twitterImages, q), q)
  {
  }

  /** The tags of a segment, filtered by property `p`: the whole segment when it is `p`'s, and nothing otherwise. */
  lemma SegmentWithProperty(page: PageRecord, ogImages: seq<SocialImage>, twitterImages: seq<SocialImage>, q: Property, p: Property)
    ensures WithProperty(Segment(page, ogImages, twitterImages, q), p)
      == if p == q then Segment(page, ogImages, twitterImages, q) else []
  {
    SegmentUniform(page, ogImages, twitterImages, q);
    WithPropertyUniform(Segment(page, ogImages, twitterImages, q), q, p);
  }

  /** Filtering a run of three segments filters each. */
  lemma WithPropertyAppendThree(a: seq<Emission>, b: seq<Emission>, c: seq<Emission>, p: Property)
    ensures WithProperty(a + b + c, p) == WithProperty(a, p) + WithProperty(b, p) + WithProperty(c, p)
  {
    WithPropertyAppend(a, b, p);
    WithPropertyAppend(a + b, c, p);
  }

  /** Filtering all tags of a page filters each of its five groups. */
  lemma EmissionsDistribute(page: PageRecord, ogImages: seq<SocialImage>, twitterImages: seq<SocialImage>, p: Property)
    ensures WithProperty(Emissions(page, ogImages, twitterImages), p)
      == WithProperty(TextTag(page, Description), p)
       + WithProperty(OpenGraphTags(page, ogImages), p)
       + WithProperty(TwitterTags(page, twitterImages), p)
       + WithProperty(CardTag(page, TwitterCardRequired(page, twitterImages)), p)
       + WithProperty(RobotsTag(page), p)
  {
    var d := TextTag(page, Description);
    var og := OpenGraphTags(page, ogImages);
    var tw := TwitterTags(page, twitterImages);
    var card := CardTag(page, TwitterCardRequired(page, twitterImages));
    var robots := RobotsTag(page);
    WithPropertyAppendThree(d, og, tw, p);
    WithPropertyAppendThree(d + og + tw, card, robots, p);
  }

  /** Filtering a run of three segments of properties `qa`, `qb` and `qc` keeps the segment of `p`'s property. */
  lemma WithPropertyOfThree(a: seq<Emission>, b: seq<Emission>, c: seq<Emission>, qa: Property, qb: Property, qc: Property, p: Property)
    requires qa != qb && qb != qc && qa != qc
    requires AllOf(a, qa)
    requires AllOf(b, qb)
    requires AllOf(c, qc)
    ensures WithProperty(a + b + c, p) == if p == qa then a else if p == qb then b else if p == qc then c else []
  {
    WithPropertyAppendThree(a, b, c, p);
    WithPropertyUniform(a, qa, p);
    WithPropertyUniform(b, qb, p);
    WithPropertyUniform(c, qc, p);
    if p == qa {
      assert WithProperty(a + b + c, p) == a + [] + [];
    } else if p == qb {
      assert WithProperty(a + b + c, p) == [] + b + [];
    } else if p == qc {
      assert WithProperty(a + b + c, p) == [] + [] + c;
    } else {
      assert WithProperty(a + b + c, p) == [] + [] + [];
    }
  }

  /** Filtering the Open Graph group keeps the segment of an Open Graph property and nothing else. */
  lemma OpenGraphWithProperty(page: PageRecord, ogImages: seq<SocialImage>, twitterImages: seq<SocialImage>, p: Property)
    ensures WithProperty(OpenGraphTags(page, ogImages), p)
      == if p == OgTitle || p == OgDescription || p == OgImage then Segment(page, ogImages, twitterImages, p) else []
  {
    SegmentUniform(page, ogImages, twitterImages, OgTitle);
    SegmentUniform(page, ogImages, twitterImages, OgDescription);
    SegmentUniform(page, ogImages, twitterImages, OgImage);
    WithPropertyOfThree(TextTag(page, OgTitle), TextTag(page, OgDescription), ImageTagsIf(page.ogImage, OgImage, ogImages),
      OgTitle, OgDescription, OgImage, p);
  }

  /** Filtering the Twitter group keeps the segment of a Twitter title, description or image and nothing else. */
  lemma TwitterWithProperty(page: PageRecord, ogImages: seq<SocialImage>, twitterImages: seq<SocialImage>, p: Property)
    ensures WithProperty(TwitterTags(page, twitterImages), p)
      == if p == TwitterTitle || p == TwitterDescription || p == TwitterImage then Segment(page, ogImages, twitterImages, p) else []
  {
    SegmentUniform(page, ogImages, twitterImages, TwitterTitle);
    SegmentUniform(page, ogImages, twitterImages, TwitterDescription);
    SegmentUniform(page, ogImages, twitterImages, TwitterImage);
    WithPropertyOfThree(TextTag(page, TwitterTitle), TextTag(page, TwitterDescription),
      ImageTagsIf(page.twitterImage, TwitterImage, twitterImages), TwitterTitle, TwitterDescription, TwitterImage, p);
  }

  /** The tags `generate` adds for property `p` are exactly its segment: no property's tags appear elsewhere. */
  lemma EmissionsWithProperty(page: PageRecord, ogImages: seq<SocialImage>, twitterImages: seq<SocialImage>, p: Property)
    ensures WithProperty(Emissions(page, ogImages, twitterImages), p) == Segment(page, ogImages, twitterImages, p)
  {
    EmissionsDistribute(page, ogImages, twitterImages, p);
    if p == Description {
      DescriptionGroup(page, ogImages, twitterImages);
    } else if p == OgTitle || p == OgDescription || p == OgImage {
      OpenGraphGroup(page, ogImages, twitterImages, p);
    } else if p == TwitterTitle || p == TwitterDescription || p == TwitterImage {
      TwitterGroup(page, ogImages, twitterImages, p);
    } else {
      CardAndRobotsGroup(page, ogImages, twitterImages, p);
    }
  }

  lemma DescriptionGroup(page: PageRecord, ogImages: seq<SocialImage>, twitterImages: seq<SocialImage>)
    ensures WithProperty(TextTag(page, Description), Description)
      + WithProperty(OpenGraphTags(page, ogImages), Description)
      + WithProperty(TwitterTags(page, twitterImages), Description)
      + WithProperty(CardTag(page, TwitterCardRequired(page, twitterImages)), Description)
      + WithProperty(RobotsTag(page), Description)
      == TextTag(page, Description)
  {
    var p := Description;
    OpenGraphWithProperty(page, ogImages, twitterImages, p);
    TwitterWithProperty(page, ogImages, twitterImages, p);
    SegmentWithProperty(page, ogImages, twitterImages, Description, p);
    SegmentWithProperty(page, ogImages, twitterImages, TwitterCard, p);
    SegmentWithProperty(page, ogImages, twitterImages, Robots, p);
    SoleSegment(WithProperty(TextTag(page, Description), p), WithProperty(OpenGraphTags(page, ogImages), p),
      WithProperty(TwitterTags(page, twitterImages), p),
      WithProperty(CardTag(page, TwitterCardRequired(page, twitterImages)), p), WithProperty(RobotsTag(page), p),
      TextTag(page, Description));
  }

  lemma OpenGraphGroup(page: PageRecord, ogImages: seq<SocialImage>, twitterImages: seq<SocialImage>, p: Property)
    requires p == OgTitle || p == OgDescription || p == OgImage
    ensures WithProperty(TextTag(page, Description), p)
      + WithProperty(OpenGraphTags(page, ogImages), p)
      + WithProperty(TwitterTags(page, twitterImages), p)
      + WithProperty(CardTag(page, TwitterCardRequired(page, twitterImages)), p)
      + WithProperty(RobotsTag(page), p)
      == Segment(page, ogImages, twitterImages, p)
  {
    OpenGraphWithProperty(page, ogImages, twitterImages, p);
    TwitterWithProperty(page, ogImages, twitterImages, p);
    SegmentWithProperty(page, ogImages, twitterImages, Description, p);
    SegmentWithProperty(page, ogImages, twitterImages, TwitterCard, p);
    SegmentWithProperty(page, ogImages, twitterImages, Robots, p);
    SoleSegment(WithProperty(OpenGraphTags(page, ogImages), p), WithProperty(TextTag(page, Description), p),
      WithProperty(TwitterTags(page, twitterImages), p),
      WithProperty(CardTag(page, TwitterCardRequired(page, twitterImages)), p), WithProperty(RobotsTag(page), p),
      Segment(page, ogImages, twitterImages, p));
  }

  lemma TwitterGroup(page: PageRecord, ogImages: seq<SocialImage>, twitterImages: seq<SocialImage>, p: Property)
    requires p == TwitterTitle || p == TwitterDescription || p == TwitterImage
    ensures WithProperty(TextTag(page, Description), p)
      + WithProperty(OpenGraphTags(page, ogImages), p)
      + WithProperty(TwitterTags(page, twitterImages), p)
      + WithProperty(CardTag(page, TwitterCardRequired(page, twitterImages)), p)
      + WithProperty(RobotsTag(page), p)
      == Segment(page, ogImages, twitterImages, p)
  {
    OpenGraphWithProperty(page, ogImages, twitterImages, p);
    TwitterWithProperty(page, ogImages, twitterImages, p);
    SegmentWithProperty(page, ogImages, twitterImages, Description, p);
    SegmentWithProperty(page, ogImages, twitterImages, TwitterCard, p);
    SegmentWithProperty(page, ogImages, twitterImages, Robots, p);
    SoleSegment(WithProperty(TwitterTags(page, twitterImages), p), WithProperty(TextTag(page, Description), p),
      WithProperty(OpenGraphTags(page, ogImages), p),
      WithProperty(CardTag(page, TwitterCardRequired(page, twitterImages)), p), WithProperty(RobotsTag(page), p),
      Segment(page, ogImages, twitterImages, p));
  }

  lemma CardAndRobotsGroup(page: PageRecord, ogImages: seq<SocialImage>, twitterImages: seq<SocialImage>, p: Property)
    requires p == TwitterCard || p == Robots
    ensures WithProperty(TextTag(page, Description), p)
      + WithProperty(OpenGraphTags(page, ogImages), p)
      + WithProperty(TwitterTags(page, twitterImages), p)
      + WithProperty(CardTag(page, TwitterCardRequired(page, twitterImages)), p)
      + WithProperty(RobotsTag(page), p)
      == Segment(page, ogImages, twitterImages, p)
  {
    OpenGraphWithProperty(page, ogImages, twitterImages, p);
    TwitterWithProperty(page, ogImages, twitterImages, p);
    SegmentWithProperty(page, ogImages, twitterImages, Description, p);
    SegmentWithProperty(page, ogImages, twitterImages, TwitterCard, p);
    SegmentWithProperty(page, ogImages, twitterImages, Robots, p);
    var d := WithProperty(TextTag(page, Description), p);
    var og := WithProperty(OpenGraphTags(page, ogImages), p);
    var tw := WithProperty(TwitterTags(page, twitterImages), p);
    var card := WithProperty(CardTag(page, TwitterCardRequired(page, twitterImages)), p);
    var robots := WithProperty(RobotsTag(page), p);
    if p == TwitterCard {
      SoleSegment(card, d, og, tw, robots, Segment(page, ogImages, twitterImages, p));
    } else {
      SoleSegment(robots, d, og, tw, card, Segment(page, ogImages, twitterImages, p));
    }
  }

  /** A run of five parts of which all but `s` are empty is `s`, wherever `s` stands in it. It proves unaided; stating it separately keeps the callers' proofs small. */
  lemma SoleSegment<T>(s: seq<T>, a: seq<T>, b: seq<T>, c: seq<T>, d: seq<T>, whole: seq<T>)
    requires a == [] && b == [] && c == [] && d == [] && whole == s
    ensures s + a + b + c + d == whole
    ensures a + s + b + c + d == whole
    ensures a + b + s + c + d == whole
    ensures a + b + c + s + d == whole
    ensures a + b + c + d + s == whole
  {
  }

  // ---------------------------------------------------------------------
  // The rules `generate` follows

  /**
   * `description`, `og:title`, `og:description`, `twitter:title` and
   * `twitter:description` each get one tag, carrying the page's value,
   * exactly when the page's column is non-empty, and no tag otherwise.
   */
  lemma TextTagEmitted(page: PageRecord, ogImages: seq<SocialImage>, twitterImages: seq<SocialImage>, p: Property)
    requires p.IsText()
    ensures var tags := WithProperty(Emissions(page, ogImages, twitterImages), p);
      && (Truthy(p.ValueIn(page)) ==> tags == [Emission(p, p.ValueIn(page), [])])
      && (!Truthy(p.ValueIn(page)) ==> tags == [])
  {
    EmissionsWithProperty(page, ogImages, twitterImages, p);
  }

  /** `og:image` tags: none unless the page has `og_image`; then one per referenced file, in order. */
  lemma OgImageTagsEmitted(backend: ImageBackend, page: PageRecord, ogReferences: seq<FileReference>, twitterReferences: seq<FileReference>)
    ensures var tags := WithProperty(Emissions(page, SocialImages(backend, ogReferences), SocialImages(backend, twitterReferences)), OgImage);
      && (!Truthy(page.ogImage) ==> tags == [])
      && (Truthy(page.ogImage) ==> |tags| == |ogReferences|)
  {
    EmissionsWithProperty(page, SocialImages(backend, ogReferences), SocialImages(backend, twitterReferences), OgImage);
  }

  /**
   * The `og:image` tag of the `k`-th referenced file: its content is the
   * URI of the (possibly processed) image; its sub-properties are that URI,
   * the image's width and height, and the reference's alternative text
   * exactly when that text is non-empty.
   */
  lemma OgImageTagAt(backend: ImageBackend, page: PageRecord, ogReferences: seq<FileReference>, twitterReferences: seq<FileReference>, k: nat)
    requires Truthy(page.ogImage) && k < |ogReferences|
    ensures var tags := WithProperty(Emissions(page, SocialImages(backend, ogReferences), SocialImages(backend, twitterReferences)), OgImage);
      var image := ProcessSocialImage(backend, ogReferences[k]);
      var alternative := ogReferences[k].alternative;
      && k < |tags|
      && tags[k].content == Str(backend.imageUri(image))
      && |tags[k].subProperties| == (if Truthy(alternative) then 4 else 3)
      && tags[k].subProperties[0] == SubProperty(Url, Str(backend.imageUri(image)))
      && tags[k].subProperties[1] == SubProperty(Width, Int(backend.imageWidth(image)))
      && tags[k].subProperties[2] == SubProperty(Height, Int(backend.imageHeight(image)))
      && (Truthy(alternative) ==> tags[k].subProperties[3] == SubProperty(Alt, alternative))
  {
    var ogImages := SocialImages(backend, ogReferences);
    EmissionsWithProperty(page, ogImages, SocialImages(backend, twitterReferences), OgImage);
  }

  /** `twitter:image` tags: none unless the page has `twitter_image`; then one per referenced file, in order. */
  lemma TwitterImageTagsEmitted(backend: ImageBackend, page: PageRecord, ogReferences: seq<FileReference>, twitterReferences: seq<FileReference>)
    ensures var tags := WithProperty(Emissions(page, SocialImages(backend, ogReferences), SocialImages(backend, twitterReferences)), TwitterImage);
      && (!Truthy(page.twitterImage) ==> tags == [])
      && (Truthy(page.twitterImage) ==> |tags| == |twitterReferences|)
  {
    EmissionsWithProperty(page, SocialImages(backend, ogReferences), SocialImages(backend, twitterReferences), TwitterImage);
  }

  /**
   * The `twitter:image` tag of the `k`-th referenced file: its content is
   * the image URI and its only possible sub-property is the alternative
   * text, present exactly when non-empty; never a width or a height.
   */
  lemma TwitterImageTagAt(backend: ImageBackend, page: PageRecord, ogReferences: seq<FileReference>, twitterReferences: seq<FileReference>, k: nat)
    requires Truthy(page.twitterImage) && k < |twitterReferences|
    ensures var tags := WithProperty(Emissions(page, SocialImages(backend, ogReferences), SocialImages(backend, twitterReferences)), TwitterImage);
      var image := ProcessSocialImage(backend, twitterReferences[k]);
      var alternative := twitterReferences[k].alternative;
      && k < |tags|
      && tags[k].content == Str(backend.imageUri(image))
      && |tags[k].subProperties| == (if Truthy(alternative) then 1 else 0)
      && (forall i | 0 <= i < |tags[k].subProperties| :: tags[k].subProperties[i] == SubProperty(Alt, alternative))
  {
    var twitterImages := SocialImages(backend, twitterReferences);
    EmissionsWithProperty(page, SocialImages(backend, ogReferences), twitterImages, TwitterImage);
  }

  /**
   * `twitter:card`: the page's card type when it is non-empty; otherwise
   * `summary` exactly when some other Twitter tag (title, description or
   * image) is added; otherwise no card tag.
   */
  lemma CardTagEmitted(page: PageRecord, ogImages: seq<SocialImage>, twitterImages: seq<SocialImage>)
    ensures var e := Emissions(page, ogImages, twitterImages);
      var cards := WithProperty(e, TwitterCard);
      var others := WithProperty(e, TwitterTitle) + WithProperty(e, TwitterDescription) + WithProperty(e, TwitterImage);
      && (Truthy(page.twitterCard) ==> cards == [Emission(TwitterCard, page.twitterCard, [])])
      && (!Truthy(page.twitterCard) && others != [] ==> cards == [Emission(TwitterCard, Str("summary"), [])])
      && (!Truthy(page.twitterCard) && others == [] ==> cards == [])
  {
    var e := Emissions(page, ogImages, twitterImages);
    EmissionsWithProperty(page, ogImages, twitterImages, TwitterCard);
    assert WithProperty(e, TwitterCard) == CardTag(page, TwitterCardRequired(page, twitterImages));
    OtherTwitterTags(page, ogImages, twitterImages);
  }

  /** Some Twitter title, description or image tag is added exactly when the card is required. */
  lemma OtherTwitterTags(page: PageRecord, ogImages: seq<SocialImage>, twitterImages: seq<SocialImage>)
    ensures var e := Emissions(page, ogImages, twitterImages);
      WithProperty(e, TwitterTitle) + WithProperty(e, TwitterDescription) + WithProperty(e, TwitterImage) != []
      <==> TwitterCardRequired(page, twitterImages)
  {
    var e := Emissions(page, ogImages, twitterImages);
    EmissionsWithProperty(page, ogImages, twitterImages, TwitterTitle);
    EmissionsWithProperty(page, ogImages, twitterImages, TwitterDescription);
    EmissionsWithProperty(page, ogImages, twitterImages, TwitterImage);
    assert |WithProperty(e, TwitterTitle) + WithProperty(e, TwitterDescription) + WithProperty(e, TwitterImage)|
      == |WithProperty(e, TwitterTitle)| + |WithProperty(e, TwitterDescription)| + |WithProperty(e, TwitterImage)|;
  }

  /**
   * `robots`: added exactly when the page is excluded from indexing or from
   * link following, with the value of the two flags; never `index,follow`.
   */
  lemma RobotsTagEmitted(page: PageRecord, ogImages: seq<SocialImage>, twitterImages: seq<SocialImage>)
    ensures var robots := WithProperty(Emissions(page, ogImages, twitterImages), Robots);
      var noIndex := Truthy(page.noIndex);
      var noFollow := Truthy(page.noFollow);
      && (robots != [] <==> noIndex || noFollow)
      && (robots != [] ==> robots == [Emission(Robots, Str(RobotsValue(noIndex, noFollow)), [])])
      && (forall i | 0 <= i < |robots| :: robots[i].content != Str("index,follow"))
  {
    EmissionsWithProperty(page, ogImages, twitterImages, Robots);
    assert Segment(page, ogImages, twitterImages, Robots) == RobotsTag(page);
    if Truthy(page.noIndex) || Truthy(page.noFollow) {
      RobotsValues(Truthy(page.noIndex), Truthy(page.noFollow));
    }
  }


  /** The ranks of `s`'s properties never decrease. */
  predicate Ranked(s: seq<Emission>)
  {
    forall i, j | 0 <= i < j < |s| :: s[i].property.Rank() <= s[j].property.Rank()
  }

  /** The ranks of `s`'s properties lie in `lo..hi`. */
  predicate RanksWithin(s: seq<Emission>, lo: nat, hi: nat)
  {
    forall i | 0 <= i < |s| :: lo <= s[i].property.Rank() <= hi
  }

  /** Two ranked runs, the second ranked no lower than the first, make a ranked run. It proves unaided; stating it separately keeps the callers' proofs small. */
  lemma RankedAppend(a: seq<Emission>, b: seq<Emission>, lo: nat, aHi: nat, bLo: nat, hi: nat)
    requires Ranked(a) && RanksWithin(a, lo, aHi)
    requires Ranked(b) && RanksWithin(b, bLo, hi)
    requires lo <= aHi <= bLo <= hi
    ensures Ranked(a + b) && RanksWithin(a + b, lo, hi)
  {
    forall i, j | 0 <= i < j < |a + b|
      ensures (a + b)[i].property.Rank() <= (a + b)[j].property.Rank()
    {
      if j < |a| {
        assert (a + b)[i] == a[i] && (a + b)[j] == a[j];
      } else if i < |a| {
        assert (a + b)[i] == a[i] && (a + b)[j] == b[j - |a|];
      } else {
        assert (a + b)[i] == b[i - |a|] && (a + b)[j] == b[j - |a|];
      }
    }
    forall i | 0 <= i < |a + b|
      ensures lo <= (a + b)[i].property.Rank() <= hi
    {
      if i < |a| {
        assert (a + b)[i] == a[i];
      } else {
        assert (a + b)[i] == b[i - |a|];
      }
    }
  }

  /** A run of one property's tags is ranked, at that property's rank. It proves unaided; stating it separately keeps the callers' proofs small. */
  lemma UniformRanked(s: seq<Emission>, q: Property)
    requires AllOf(s, q)
    ensures Ranked(s) && RanksWithin(s, q.Rank(), q.Rank())
  {
    forall i, j | 0 <= i < j < |s|
      ensures s[i].property.Rank() <= s[j].property.Rank()
    {
      assert s[i].property == q && s[j].property == q;
    }
  }

  /** Nine runs, one per property in rank order, make a ranked run however they are grouped. It proves unaided; stating it separately keeps the callers' proofs small. */
  lemma SegmentsRanked(d: seq<Emission>, ot: seq<Emission>, od: seq<Emission>, oi: seq<Emission>,
                       tt: seq<Emission>, td: seq<Emission>, ti: seq<Emission>, c: seq<Emission>, r: seq<Emission>)
    requires AllOf(d, Description) && AllOf(ot, OgTitle) && AllOf(od, OgDescription) && AllOf(oi, OgImage)
    requires AllOf(tt, TwitterTitle) && AllOf(td, TwitterDescription) && AllOf(ti, TwitterImage)
    requires AllOf(c, TwitterCard) && AllOf(r, Robots)
    ensures Ranked(d + (ot + od + oi) + (tt + td + ti) + c + r)
  {
    UniformRanked(d, Description);
    UniformRanked(ot, OgTitle);
    UniformRanked(od, OgDescription);
    UniformRanked(oi, OgImage);
    UniformRanked(tt, TwitterTitle);
    UniformRanked(td, TwitterDescription);
    UniformRanked(ti, TwitterImage);
    UniformRanked(c, TwitterCard);
    UniformRanked(r, Robots);
    RankedAppend(ot, od, 1, 1, 2, 2);
    RankedAppend(ot + od, oi, 1, 2, 3, 3);
    RankedAppend(tt, td, 4, 4, 5, 5);
    RankedAppend(tt + td, ti, 4, 5, 6, 6);
    RankedAppend(d, ot + od + oi, 0, 0, 1, 3);
    RankedAppend(d + (ot + od + oi), tt + td + ti, 0, 3, 4, 6);
    RankedAppend(d + (ot + od + oi) + (tt + td + ti), c, 0, 6, 7, 7);
    RankedAppend(d + (ot + od + oi) + (tt + td + ti) + c, r, 0, 7, 8, 8);
  }

  /**
   * The tags come in a fixed order: description, `og:title`,
   * `og:description`, the `og:image` tags, `twitter:title`,
   * `twitter:description`, the `twitter:image` tags, `twitter:card`, `robots`.
   */
  lemma EmissionsOrdered(page: PageRecord, ogImages: seq<SocialImage>, twitterImages: seq<SocialImage>)
    ensures Ranked(Emissions(page, ogImages, twitterImages))
  {
    SegmentUniform(page, ogImages, twitterImages, Description);
    SegmentUniform(page, ogImages, twitterImages, OgTitle);
    SegmentUniform(page, ogImages, twitterImages, OgDescription);
    SegmentUniform(page, ogImages, twitterImages, OgImage);
    SegmentUniform(page, ogImages, twitterImages, TwitterTitle);
    SegmentUniform(page, ogImages, twitterImages, TwitterDescription);
    SegmentUniform(page, ogImages, twitterImages, TwitterImage);
    SegmentUniform(page, ogImages, twitterImages, TwitterCard);
    SegmentUniform(page, ogImages, twitterImages, Robots);
    SegmentsRanked(TextTag(page, Description),
      TextTag(page, OgTitle), TextTag(page, OgDescription), ImageTagsIf(page.ogImage, OgImage, ogImages),
      TextTag(page, TwitterTitle), TextTag(page, TwitterDescription), ImageTagsIf(page.twitterImage, TwitterImage, twitterImages),
      CardTag(page, TwitterCardRequired(page, twitterImages)), RobotsTag(page));
  }

  // ---------------------------------------------------------------------
  // The generator

  /** The meta tag generator, with the registry it adds to and the image pipeline it uses. */
  class MetaTagGenerator {
    const registry: TagRegistry
    const backend: ImageBackend

    constructor (registry: TagRegistry, backend: ImageBackend)
      ensures this.registry == registry && this.backend == backend
    {
      this.registry := registry;
      this.backend := backend;
    }

    /** `generateSocialImages`: one social image per file reference, in order. */
    method GenerateSocialImages(references: seq<FileReference>) returns (images: seq<SocialImage>)
      ensures images == SocialImages(backend, references)
    {
      images := [];
      var i := 0;
      while i < |references|
        invariant 0 <= i <= |references|
        invariant images == SocialImages(backend, references[..i])
      {
        var reference := references[i];
        var image := ProcessSocialImage(backend, reference);
        images := images + [SocialImage(
          backend.imageUri(image),
          backend.imageWidth(image),
          backend.imageHeight(image),
          reference.alternative)];
        assert references[..i + 1][..i] == references[..i];
        i := i + 1;
      }
      assert references[..i] == references;
    }

    /** The `foreach ($ogImages ...)` loop: one `og:image` tag per image. */
    method AddOgImageTags(ogImages: seq<SocialImage>)
      modifies registry
      ensures registry.emissions == old(registry.emissions) + ImageTags(OgImage, ogImages)
    {
      var i := 0;
      while i < |ogImages|
        invariant 0 <= i <= |ogImages|
        invariant registry.emissions == old(registry.emissions) + ImageTags(OgImage, ogImages[..i])
      {
        var ogImage := ogImages[i];
        var subProperties := [
          SubProperty(Url, Str(ogImage.url)),
          SubProperty(Width, Int(ogImage.width)),
          SubProperty(Height, Int(ogImage.height))];
        if Truthy(ogImage.alternative) {
          subProperties := subProperties + [SubProperty(Alt, ogImage.alternative)];
        }
        assert subProperties == OgSubProperties(ogImage);
        registry.AddProperty(OgImage, Str(ogImage.url), subProperties);
        assert ogImages[..i + 1][..i] == ogImages[..i];
        i := i + 1;
      }
      assert ogImages[..i] == ogImages;
    }

    /**
     * The `foreach ($twitterImages ...)` loop: one `twitter:image` tag per
     * image; each image sets the card-required flag.
     */
    method AddTwitterImageTags(twitterImages: seq<SocialImage>, cardRequired: bool) returns (required: bool)
      modifies registry
      ensures registry.emissions == old(registry.emissions) + ImageTags(TwitterImage, twitterImages)
      ensures required == (cardRequired || |twitterImages| > 0)
    {
      required := cardRequired;
      var i := 0;
      while i < |twitterImages|
        invariant 0 <= i <= |twitterImages|
        invariant registry.emissions == old(registry.emissions) + ImageTags(TwitterImage, twitterImages[..i])
        invariant required == (cardRequired || i > 0)
      {
        var twitterImage := twitterImages[i];
        required := true;
        var subProperties := [];
        if Truthy(twitterImage.alternative) {
          subProperties := subProperties + [SubProperty(Alt, twitterImage.alternative)];
        }
        assert subProperties == TwitterSubProperties(twitterImage);
        registry.AddProperty(TwitterImage, Str(twitterImage.url), subProperties);
        assert twitterImages[..i + 1][..i] == twitterImages[..i];
        i := i + 1;
      }
      assert twitterImages[..i] == twitterImages;
    }

    /** One `if (!empty($pageRecord[column]))` block of a text property; `added` says whether it added the tag. */
    method AddTextTag(page: PageRecord, p: Property) returns (added: bool)
      requires p.IsText()
      modifies registry
      ensures registry.emissions == old(registry.emissions) + TextTag(page, p)
      ensures added == Truthy(p.ValueIn(page))
    {
      added := Truthy(p.ValueIn(page));
      if added {
        registry.AddProperty(p, p.ValueIn(page), []);
      }
    }

    /** The Open Graph part of `generate`: title, description and the `og_image` relation's images. */
    method AddOpenGraphTags(page: PageRecord, ogReferences: seq<FileReference>)
      modifies registry
      ensures registry.emissions == old(registry.emissions) + OpenGraphTags(page, SocialImages(backend, ogReferences))
    {
      var _ := AddTextTag(page, OgTitle);
      var _ := AddTextTag(page, OgDescription);
      ghost var afterText := registry.emissions;
      if Truthy(page.ogImage) {
        var ogImages := GenerateSocialImages(ogReferences);
        AddOgImageTags(ogImages);
      }
      assert registry.emissions == afterText + ImageTagsIf(page.ogImage, OgImage, SocialImages(backend, ogReferences));
      AppendThree(old(registry.emissions), TextTag(page, OgTitle), TextTag(page, OgDescription),
        ImageTagsIf(page.ogImage, OgImage, SocialImages(backend, ogReferences)));
    }

    /**
     * The Twitter part of `generate`: title, description and the
     * `twitter_image` relation's images; `required` is the card-required flag.
     */
    method AddTwitterTags(page: PageRecord, twitterReferences: seq<FileReference>) returns (required: bool)
      modifies registry
      ensures registry.emissions == old(registry.emissions) + TwitterTags(page, SocialImages(backend, twitterReferences))
      ensures required == TwitterCardRequired(page, SocialImages(backend, twitterReferences))
    {
      required := false;
      var titleAdded := AddTextTag(page, TwitterTitle);
      required := required || titleAdded;
      var descriptionAdded := AddTextTag(page, TwitterDescription);
      required := required || descriptionAdded;
      ghost var afterText := registry.emissions;
      ghost var twitterImages := SocialImages(backend, twitterReferences);
      if Truthy(page.twitterImage) {
        var images := GenerateSocialImages(twitterReferences);
        required := AddTwitterImageTags(images, required);
      }
      assert registry.emissions == afterText + ImageTagsIf(page.twitterImage, TwitterImage, twitterImages);
      AppendThree(old(registry.emissions), TextTag(page, TwitterTitle), TextTag(page, TwitterDescription),
        ImageTagsIf(page.twitterImage, TwitterImage, twitterImages));
    }

    /** The `twitter:card` block of `generate`, given the card-required flag. */
    method AddTwitterCardTag(page: PageRecord, twitterCardTagRequired: bool)
      modifies registry
      ensures registry.emissions == old(registry.emissions) + CardTag(page, twitterCardTagRequired)
    {
      var card := page.twitterCard;
      var twitterCard := if Truthy(card) then card else if twitterCardTagRequired then Str("summary") else Str("");
      if Truthy(twitterCard) {
        registry.AddProperty(TwitterCard, twitterCard, []);
      }
    }

    /** The `robots` block of `generate`. */
    method AddRobotsTag(page: PageRecord)
      modifies registry
      ensures registry.emissions == old(registry.emissions) + RobotsTag(page)
    {
      var noIndex := if Truthy(page.noIndex) then "noindex" else "index";
      var noFollow := if Truthy(page.noFollow) then "nofollow" else "follow";
      if noIndex == "noindex" || noFollow == "nofollow" {
        registry.AddProperty(Robots, Str(noIndex + "," + noFollow), []);
      }
    }

    /**
     * `generate`: adds the page's meta tags in a fixed order. `ogReferences`
     * and `twitterReferences` are the files the file collector finds for the
     * page's `og_image` and `twitter_image` relations.
     */
    method Generate(page: PageRecord, ogReferences: seq<FileReference>, twitterReferences: seq<FileReference>)
      modifies registry
      ensures registry.emissions == old(registry.emissions)
        + Emissions(page, SocialImages(backend, ogReferences), SocialImages(backend, twitterReferences))
    {
      ghost var ogImages := SocialImages(backend, ogReferences);
      ghost var twitterImages := SocialImages(backend, twitterReferences);
      var _ := AddTextTag(page, Description);
      AddOpenGraphTags(page, ogReferences);
      var twitterCardTagRequired := AddTwitterTags(page, twitterReferences);
      AddTwitterCardTag(page, twitterCardTagRequired);
      AddRobotsTag(page);
      AppendFive(old(registry.emissions), TextTag(page, Description), OpenGraphTags(page, ogImages),
        TwitterTags(page, twitterImages), CardTag(page, twitterCardTagRequired), RobotsTag(page));
    }
  }
}
