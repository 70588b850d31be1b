/**
 * The gallery lookup's formatting helpers: the cover image URL and the tag
 * summary grouped by tag type.
 */
module Nhentai {
  import Text

  datatype TagType = Parody | Tag | Artist | Group | Language | Category | Character

  /** The part of a gallery tag the summary uses. */
  datatype GalleryTag = GalleryTag(tagType: TagType, name: string)

  /** `parse_extension`: the one-letter image type code to a file extension. */
  function ParseExtension(raw: string): (ext: string)
    ensures ext in {"jpg", "png", "gif", ""}
    ensures ext == "" <==> raw !in {"j", "p", "g"}
    ensures ext != "" ==> [ext[0]] == raw
  {
    match raw
    case "j" => "jpg"
    case "p" => "png"
    case "g" => "gif"
    case _ => ""
  }

  const CoverBase := "https://t.nhentai.net/galleries/"

  /** `get_cover_url`. */
  function CoverUrl(mediaId: string, rawExtension: string): (url: string)
    ensures CoverBase + mediaId + "/cover." <= url
    ensures url[|CoverBase + mediaId + "/cover."|..] == ParseExtension(rawExtension)
  {
    var coverExtension := ParseExtension(rawExtension);
    CoverBase + mediaId + "/cover." + coverExtension
  }

  /** `filter_tags_by_type`: the tags of one type, in their original order. */
  function FilterTagsByType(tags: seq<GalleryTag>, t: TagType): (r: seq<GalleryTag>)
    ensures |r| <= |tags|
    ensures forall i :: 0 <= i < |r| ==> r[i].tagType == t
  {
    if tags == [] then []
    else
      (if tags[0].tagType == t then [tags[0]] else []) + FilterTagsByType(tags[1..], t)
  }

  /** Filtering keeps the order: it distributes over concatenation. */
  lemma {:induction false} FilterAppend(a: seq<GalleryTag>, b: seq<GalleryTag>, t: TagType)
    ensures FilterTagsByType(a + b, t) == FilterTagsByType(a, t) + FilterTagsByType(b, t)
  {
    if a == [] {
      assert a + b == b;
    } else {
      assert (a + b)[0] == a[0];
      assert (a + b)[1..] == a[1..] + b;
      FilterAppend(a[1..], b, t);
    }
  }

  /** A tag occurs in the filter for its own type as often as in the input, and in no other. */
  lemma {:induction false} FilterCounts(tags: seq<GalleryTag>, t: TagType, x: GalleryTag)
    ensures multiset(FilterTagsByType(tags, t))[x] == if x.tagType == t then multiset(tags)[x] else 0
  {
    if tags != [] {
      var head := if tags[0].tagType == t then [tags[0]] else [];
      var tail := FilterTagsByType(tags[1..], t);
      FilterCounts(tags[1..], t, x);
      assert FilterTagsByType(tags, t) == head + tail;
      assert multiset(head + tail) == multiset(head) + multiset(tail);
      assert tags == [tags[0]] + tags[1..];
      assert multiset(tags) == multiset([tags[0]]) + multiset(tags[1..]);
    }
  }

  /** The tags of all seven types together. */
  function ByType(tags: seq<GalleryTag>): multiset<GalleryTag>
  {
    multiset(FilterTagsByType(tags, Tag)) + multiset(FilterTagsByType(tags, Parody))
      + multiset(FilterTagsByType(tags, Character)) + multiset(FilterTagsByType(tags, Artist))
      + multiset(FilterTagsByType(tags, Group)) + multiset(FilterTagsByType(tags, Language))
      + multiset(FilterTagsByType(tags, Category))
  }

  /** One tag value: exactly the filter for its own type counts it. */
  lemma ByTypeCount(tags: seq<GalleryTag>, x: GalleryTag)
    ensures ByType(tags)[x] == multiset(tags)[x]
  {
    FilterCounts(tags, Tag, x);
    FilterCounts(tags, Parody, x);
    FilterCounts(tags, Character, x);
    FilterCounts(tags, Artist, x);
    FilterCounts(tags, Group, x);
    FilterCounts(tags, Language, x);
    FilterCounts(tags, Category, x);
  }

  /** The seven filters split the tags: every tag lands in exactly one of them, once per occurrence. */
  lemma TypesPartitionTags(tags: seq<GalleryTag>)
    ensures ByType(tags) == multiset(tags)
  {
    forall x
      ensures ByType(tags)[x] == multiset(tags)[x]
    {
      ByTypeCount(tags, x);
    }
  }

  function Quoted(tag: GalleryTag): string
  {
    "`" + tag.name + "`"
  }

  /** `format_tag_items`: each name in backticks, joined with ", ". */
  function FormatTagItems(tags: seq<GalleryTag>): (r: string)
    ensures r == "" <==> tags == []
  {
    var items := QuotedNames(tags);
    Text.JoinEmptyIff(items, ", ");
    Text.Join(items, ", ")
  }

  function QuotedNames(tags: seq<GalleryTag>): (items: seq<string>)
    ensures |items| == |tags|
    ensures forall i :: 0 <= i < |tags| ==> items[i] == Quoted(tags[i]) != ""
  {
    seq(|tags|, i requires 0 <= i < |tags| => Quoted(tags[i]))
  }

  /** The list opens with the first name in backticks; a single tag is just that. */
  lemma FormatTagItemsHead(tags: seq<GalleryTag>)
    requires tags != []
    ensures Quoted(tags[0]) <= FormatTagItems(tags)
    ensures |tags| == 1 ==> FormatTagItems(tags) == Quoted(tags[0])
  {
    Text.JoinStartsWithHead(QuotedNames(tags), ", ");
  }

  /** The labelled categories after the plain tags, in the order they are printed. */
  const Sections: seq<TagType> := [Parody, Character, Artist, Group, Language, Category]

  function Heading(t: TagType): string
  {
    match t
    case Parody => "Parodies"
    case Character => "Characters"
    case Artist => "Artists"
    case Group => "Groups"
    case Language => "Languages"
    case Category => "Categories"
    case Tag => "Tags"
  }

  /** One "\n <Label>: <items>" line, or nothing for an empty category. */
  function Section(heading: string, items: seq<GalleryTag>): (r: string)
    ensures r == "" <==> items == []
  {
    if items == [] then "" else "\n " + heading + ": " + FormatTagItems(items)
  }

  /** A non-empty category's line opens with its heading. */
  lemma SectionStartsWithHeading(heading: string, items: seq<GalleryTag>)
    requires items != []
    ensures "\n " + heading + ": " <= Section(heading, items)
  {
    var prefix := "\n " + heading + ": ";
    assert Section(heading, items)[..|prefix|] == prefix;
  }

  /** `acc` followed by the line of each category in `sections`, in order. */
  function AppendSections(acc: string, tags: seq<GalleryTag>, sections: seq<TagType>): string
    decreases |sections|
  {
    if sections == [] then acc
    else AppendSections(acc + Section(Heading(sections[0]), FilterTagsByType(tags, sections[0])), tags, sections[1..])
  }

  /** Appending category lines never changes what came before. */
  lemma {:induction false} AppendSectionsExtends(acc: string, tags: seq<GalleryTag>, sections: seq<TagType>)
    ensures acc <= AppendSections(acc, tags, sections)
    decreases |sections|
  {
    if sections != [] {
      var next := acc + Section(Heading(sections[0]), FilterTagsByType(tags, sections[0]));
      AppendSectionsExtends(next, tags, sections[1..]);
    }
  }

  /** With no tag of any listed type, nothing is appended. */
  lemma {:induction false} AppendSectionsEmpty(acc: string, tags: seq<GalleryTag>, sections: seq<TagType>)
    requires forall i :: 0 <= i < |sections| ==> FilterTagsByType(tags, sections[i]) == []
    ensures AppendSections(acc, tags, sections) == acc
    decreases |sections|
  {
    if sections != [] {
      assert acc + Section(Heading(sections[0]), FilterTagsByType(tags, sections[0])) == acc;
      AppendSectionsEmpty(acc, tags, sections[1..]);
    }
  }

  /**
   * `build_tag_string`: the plain tags and a line feed, then each non-empty
   * category of Sections as its own labelled line.
   */
  method BuildTagString(allTags: seq<GalleryTag>) returns (tagsString: string)
    ensures tagsString == AppendSections(FormatTagItems(FilterTagsByType(allTags, Tag)) + "\n", allTags, Sections)
  {
    var tags := FilterTagsByType(allTags, Tag);
    var parodies := FilterTagsByType(allTags, Parody);
    var characters := FilterTagsByType(allTags, Character);
    var artists := FilterTagsByType(allTags, Artist);
    var groups := FilterTagsByType(allTags, Group);
    var languages := FilterTagsByType(allTags, Language);
    var categories := FilterTagsByType(allTags, Category);

    tagsString := FormatTagItems(tags) + "\n";
    ghost var head := tagsString;

    tagsString := AppendIfNonEmpty(tagsString, "Parodies", parodies);
    tagsString := AppendIfNonEmpty(tagsString, "Characters", characters);
    tagsString := AppendIfNonEmpty(tagsString, "Artists", artists);
    tagsString := AppendIfNonEmpty(tagsString, "Groups", groups);
    tagsString := AppendIfNonEmpty(tagsString, "Languages", languages);
    tagsString := AppendIfNonEmpty(tagsString, "Categories", categories);
    AppendSectionsInOrder(head, allTags);
  }

  /** One `if !items.is_empty() { tags_string += format!("\n <Heading>: {}", …) }` step. */
  method AppendIfNonEmpty(tagsString: string, heading: string, items: seq<GalleryTag>) returns (r: string)
    ensures r == tagsString + Section(heading, items)
    ensures items == [] ==> r == tagsString
  {
    r := tagsString;
    if items != [] {
      r := r + "\n " + heading + ": " + FormatTagItems(items);
    }
  }

  /** The six category lines follow each other in the order of Sections. */
  lemma AppendSectionsInOrder(head: string, allTags: seq<GalleryTag>)
    ensures AppendSections(head, allTags, Sections)
         == head + Section("Parodies", FilterTagsByType(allTags, Parody))
                 + Section("Characters", FilterTagsByType(allTags, Character))
                 + Section("Artists", FilterTagsByType(allTags, Artist))
                 + Section("Groups", FilterTagsByType(allTags, Group))
                 + Section("Languages", FilterTagsByType(allTags, Language))
                 + Section("Categories", FilterTagsByType(allTags, Category))
  {
  }

  /** The tag string always opens with the plain tags and a line feed, even with none of them. */
  lemma TagStringStartsWithPlainTags(allTags: seq<GalleryTag>)
    ensures var plain := FormatTagItems(FilterTagsByType(allTags, Tag)) + "\n";
      plain <= AppendSections(plain, allTags, Sections)
  {
    AppendSectionsExtends(FormatTagItems(FilterTagsByType(allTags, Tag)) + "\n", allTags, Sections);
  }
}
