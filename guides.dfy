/**
 * The server actions behind the guide editor: reading the submitted form
 * into a row payload (trimmed text fields, the "published" checkbox as a
 * boolean, an embeddable video URL derived from the video link) and
 * inserting, updating or deleting one row of the `guides` table.
 */
module Guides {
  import opened Wrappers
  import opened JsBuiltins

  // ---------------------------------------------------------------------
  // toEmbed

  /** A URL as the URL parser splits it: host name, path, and query parameters in order. */
  datatype Url = Url(hostname: string, pathname: string, query: seq<(string, string)>)

  /** `searchParams.get(name)`: the value of the first parameter with that name. */
  function SearchParam(query: seq<(string, string)>, name: string): (r: Option<string>)
    ensures r.None? <==> forall i :: 0 <= i < |query| ==> query[i].0 != name
    ensures r.Some? ==> (name, r.value) in query
    ensures r.Some? ==>
              exists i :: 0 <= i < |query| && query[i] == (name, r.value) &&
                          forall j :: 0 <= j < i ==> query[j].0 != name
  {
    if query == [] then None
    else if query[0].0 == name then Some(query[0].1)
    else SearchParam(query[1..], name)
  }

  const EmbedPrefix: string := "https://www.youtube.com/embed/"

  predicate IsEmbedUrl(s: string)
  {
    |EmbedPrefix| <= |s| && s[..|EmbedPrefix|] == EmbedPrefix
  }

  /** The video id of an embed URL: what follows the prefix. */
  function EmbedId(s: string): string
    requires IsEmbedUrl(s)
  {
    s[|EmbedPrefix|..]
  }

  /**
   * `toEmbed(url)`. `parse` is the URL parser; None is a string it rejects,
   * where `new URL` throws and the catch falls through to null.
   */
  function ToEmbed(url: Option<string>, parse: string -> Option<Url>): (r: Option<string>)
    ensures r.Some? ==> IsEmbedUrl(r.value)
  {
    if url.None? || url.value == "" then None
    else
      match parse(url.value)
      case None => None
      case Some(u) =>
        if Includes(u.hostname, "youtu.be") then
          Some(EmbedPrefix + RemoveFirst(u.pathname, '/'))
        else if Includes(u.hostname, "youtube.com") then
          Some(EmbedPrefix + SearchParam(u.query, "v").GetOr("null"))
        else None
  }

  /** A video link is recognised exactly when it is non-empty, parses, and names one of the two hosts. */
  lemma ToEmbedRecognises(url: Option<string>, parse: string -> Option<Url>)
    ensures ToEmbed(url, parse).Some? <==>
      url.Some? && url.value != "" && parse(url.value).Some? &&
      (Includes(parse(url.value).value.hostname, "youtu.be") ||
       Includes(parse(url.value).value.hostname, "youtube.com"))
  {
  }

  /** A short link embeds its path without the first "/": `youtu.be/ABC123` gives id `ABC123`. */
  lemma ShortLinkId(url: string, parse: string -> Option<Url>)
    requires url != "" && parse(url).Some? && Includes(parse(url).value.hostname, "youtu.be")
    ensures ToEmbed(Some(url), parse).Some?
    ensures EmbedId(ToEmbed(Some(url), parse).value) == RemoveFirst(parse(url).value.pathname, '/')
  {
  }

  /** A short link whose path is "/" followed by a slash-free id embeds exactly that id. */
  lemma ShortLinkPathId(url: string, parse: string -> Option<Url>, id: string)
    requires url != "" && parse(url).Some? && Includes(parse(url).value.hostname, "youtu.be")
    requires parse(url).value.pathname == "/" + id
    ensures ToEmbed(Some(url), parse) == Some(EmbedPrefix + id)
  {
    assert ("/" + id)[0] == '/';
  }

  /**
   * A youtube.com link that is not also a short link embeds its first `v`
   * parameter, or the text "null" when there is none.
   */
  lemma WatchLinkId(url: string, parse: string -> Option<Url>)
    requires url != "" && parse(url).Some?
    requires !Includes(parse(url).value.hostname, "youtu.be") && Includes(parse(url).value.hostname, "youtube.com")
    ensures ToEmbed(Some(url), parse).Some?
    ensures var id := EmbedId(ToEmbed(Some(url), parse).value);
      (SearchParam(parse(url).value.query, "v").None? ==> id == "null") &&
      (SearchParam(parse(url).value.query, "v").Some? ==>
        exists i :: 0 <= i < |parse(url).value.query| && parse(url).value.query[i] == ("v", id) &&
          forall j :: 0 <= j < i ==> parse(url).value.query[j].0 != "v")
  {
  }

  // ---------------------------------------------------------------------
  // Reading the form

  /** The submitted fields; a field missing from the form is absent from the map. */
  type FormData = map<string, string>

  /** `formData.get(name)`: None is the null of a missing field. */
  function Field(form: FormData, name: string): Option<string>
  {
    if name in form then Some(form[name]) else None
  }

  /**
   * `(formData.get(name) as string)?.trim()`: None is the undefined of a
   * missing field, and a present field comes back already trimmed, so
   * trimming it again changes nothing.
   */
  function TrimmedField(form: FormData, name: string): (r: Option<string>)
    ensures r.None? <==> name !in form
    ensures r.Some? ==> r.value == Trim(form[name])
    ensures r.Some? ==> Trim(r.value) == r.value
  {
    match Field(form, name)
    case None => None
    case Some(v) => TrimIdempotent(v); Some(Trim(v))
  }

  /**
   * The row payload both actions build. `category` is taken as submitted
   * (null when missing); the four text fields are trimmed (undefined when
   * missing); `published` is whether the checkbox value is "on".
   */
  datatype Payload = Payload(
    category: Option<string>,
    title: Option<string>,
    description: Option<string>,
    youtubeUrl: Option<string>,
    youtubeEmbedUrl: Option<string>,
    articleHtml: Option<string>,
    published: bool)

  function ReadPayload(form: FormData, parse: string -> Option<Url>): Payload
  {
    var youtubeUrl := TrimmedField(form, "youtube_url");
    Payload(
      Field(form, "category"),
      TrimmedField(form, "title"),
      TrimmedField(form, "description"),
      youtubeUrl,
      ToEmbed(youtubeUrl, parse),
      TrimmedField(form, "article_html"),
      Field(form, "published") == Some("on"))
  }

  predicate IsTrimmed(v: Option<string>)
  {
    v.Some? ==> Trim(v.value) == v.value
  }

  /**
   * The text fields of a payload are trimmed and the category is stored as
   * submitted; the checkbox is on exactly when its value is "on"; the embed
   * URL comes from the trimmed video link.
   */
  lemma PayloadNormalised(form: FormData, parse: string -> Option<Url>)
    ensures var p := ReadPayload(form, parse);
      IsTrimmed(p.title) && IsTrimmed(p.description) && IsTrimmed(p.youtubeUrl) && IsTrimmed(p.articleHtml) &&
      p.category == Field(form, "category") &&
      (p.published <==> "published" in form && form["published"] == "on") &&
      p.youtubeEmbedUrl == ToEmbed(p.youtubeUrl, parse)
  {
    if "title" in form { TrimIdempotent(form["title"]); }
    if "description" in form { TrimIdempotent(form["description"]); }
    if "youtube_url" in form { TrimIdempotent(form["youtube_url"]); }
    if "article_html" in form { TrimIdempotent(form["article_html"]); }
  }

  /** The form an edit dialog would submit for a payload: its values, and "on" when published. */
  function FormOf(p: Payload): FormData
  {
    var m: FormData := map[];
    var m := if p.category.Some? then m["category" := p.category.value] else m;
    var m := if p.title.Some? then m["title" := p.title.value] else m;
    var m := if p.description.Some? then m["description" := p.description.value] else m;
    var m := if p.youtubeUrl.Some? then m["youtube_url" := p.youtubeUrl.value] else m;
    var m := if p.articleHtml.Some? then m["article_html" := p.articleHtml.value] else m;
    if p.published then m["published" := "on"] else m
  }

  lemma FormOfFields(p: Payload)
    ensures Field(FormOf(p), "category") == p.category
    ensures Field(FormOf(p), "title") == p.title
    ensures Field(FormOf(p), "description") == p.description
    ensures Field(FormOf(p), "youtube_url") == p.youtubeUrl
    ensures Field(FormOf(p), "article_html") == p.articleHtml
    ensures Field(FormOf(p), "published") == if p.published then Some("on") else None
  {
  }

  /** A trimmed value read back through the form is unchanged. */
  lemma TrimmedFieldOfTrimmed(form: FormData, name: string)
    requires IsTrimmed(Field(form, name))
    ensures TrimmedField(form, name) == Field(form, name)
  {
  }

  /** Normalisation is idempotent: resubmitting a payload's own values yields the same payload. */
  lemma ResubmitIsStable(form: FormData, parse: string -> Option<Url>)
    ensures ReadPayload(FormOf(ReadPayload(form, parse)), parse) == ReadPayload(form, parse)
  {
    var p := ReadPayload(form, parse);
    var f := FormOf(p);
    PayloadNormalised(form, parse);
    FormOfFields(p);
    TrimmedFieldOfTrimmed(f, "title");
    TrimmedFieldOfTrimmed(f, "description");
    TrimmedFieldOfTrimmed(f, "youtube_url");
    TrimmedFieldOfTrimmed(f, "article_html");
  }

  // ---------------------------------------------------------------------
  // The guides table

  datatype Guide = Guide(
    category: Option<string>,
    title: Option<string>,
    description: Option<string>,
    youtubeUrl: Option<string>,
    youtubeEmbedUrl: Option<string>,
    articleHtml: Option<string>,
    published: bool,
    createdAt: int)

  /** The row an insert creates; omitted (undefined) columns take their default, null. */
  function Inserted(p: Payload, createdAt: int): Guide
  {
    Guide(p.category, p.title, p.description, p.youtubeUrl, p.youtubeEmbedUrl, p.articleHtml, p.published, createdAt)
  }

  /**
   * A row after an update with payload `p`: an undefined text field is
   * dropped from the request and keeps its column; a null category, the
   * embed URL and the published flag are always written.
   */
  function Updated(g: Guide, p: Payload): (r: Guide)
    ensures r.createdAt == g.createdAt
    ensures r.category == p.category && r.published == p.published && r.youtubeEmbedUrl == p.youtubeEmbedUrl
    ensures r.title == (if p.title.Some? then p.title else g.title)
    ensures r.description == (if p.description.Some? then p.description else g.description)
    ensures r.youtubeUrl == (if p.youtubeUrl.Some? then p.youtubeUrl else g.youtubeUrl)
    ensures r.articleHtml == (if p.articleHtml.Some? then p.articleHtml else g.articleHtml)
  {
    g.(category := p.category,
       title := if p.title.Some? then p.title else g.title,
       description := if p.description.Some? then p.description else g.description,
       youtubeUrl := if p.youtubeUrl.Some? then p.youtubeUrl else g.youtubeUrl,
       youtubeEmbedUrl := p.youtubeEmbedUrl,
       articleHtml := if p.articleHtml.Some? then p.articleHtml else g.articleHtml,
       published := p.published)
  }

  /** `update(payload).eq("id", id)`: only the row with that id, if any, changes. */
  function UpdateRows(rows: map<string, Guide>, id: Option<string>, p: Payload): (r: map<string, Guide>)
    ensures r.Keys == rows.Keys
    ensures forall k :: k in rows && id != Some(k) ==> r[k] == rows[k]
    ensures id.Some? && id.value in rows ==> r[id.value] == Updated(rows[id.value], p)
  {
    if id.Some? && id.value in rows then rows[id.value := Updated(rows[id.value], p)] else rows
  }

  /** `delete().eq("id", id)`: exactly the row with that id, if any, disappears. */
  function DeleteRows(rows: map<string, Guide>, id: Option<string>): (r: map<string, Guide>)
    ensures r.Keys == if id.Some? then rows.Keys - {id.value} else rows.Keys
    ensures forall k :: k in r ==> r[k] == rows[k]
  {
    if id.Some? then rows - {id.value} else rows
  }

  /** Applying the same update twice is applying it once. */
  lemma UpdateIdempotent(rows: map<string, Guide>, id: Option<string>, p: Payload)
    ensures UpdateRows(UpdateRows(rows, id, p), id, p) == UpdateRows(rows, id, p)
  {
  }

  /**
   * The `guides` table as the actions see it, keyed by id. Each action
   * sends one request and does not look at its result: `accepted` is
   * whether the store carried the write out.
   */
  class GuidesTable {
    var rows: map<string, Guide>

    constructor (initial: map<string, Guide>)
      ensures rows == initial
    {
      rows := initial;
    }

    /** `createGuideAction`; the store assigns the fresh id `newId` and the creation time. */
    method Create(form: FormData, parse: string -> Option<Url>, newId: string, createdAt: int, accepted: bool)
      requires newId !in rows
      modifies this
      ensures accepted ==> rows == old(rows)[newId := Inserted(ReadPayload(form, parse), createdAt)]
      ensures !accepted ==> rows == old(rows)
    {
      var payload := ReadPayload(form, parse);
      if accepted {
        rows := rows[newId := Inserted(payload, createdAt)];
      }
    }

    /** `updateGuideAction`: the payload, with its embed URL set, applied to the row named by the form's id. */
    method Update(form: FormData, parse: string -> Option<Url>, accepted: bool)
      modifies this
      ensures accepted ==> rows == UpdateRows(old(rows), Field(form, "id"), ReadPayload(form, parse))
      ensures !accepted ==> rows == old(rows)
    {
      var id := Field(form, "id");
      var payload := ReadPayload(form, parse);
      if accepted {
        rows := UpdateRows(rows, id, payload);
      }
    }

    /** `deleteGuideAction`: removes the row named by the form's id. */
    method Delete(form: FormData, accepted: bool)
      modifies this
      ensures accepted ==> rows == DeleteRows(old(rows), Field(form, "id"))
      ensures !accepted ==> rows == old(rows)
    {
      if accepted {
        rows := DeleteRows(rows, Field(form, "id"));
      }
    }
  }
}
