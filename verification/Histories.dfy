/** Conversation history in storage: one row per item, images in a side table, read back by a left join
    and folded into one entry per item. */
module Histories {
  import opened Wrappers
  import opened Utf8

  datatype Image = Image(id: nat, mediaType: string, data: seq<byte>)
  datatype Content = ImageContent(image: Image) | OtherContent

  datatype Item =
    | UserPrompt(prompt: string, content: seq<Content>)
    | Other(kind: string, payload: string)

  datatype Backend = Backend(providerId: string, backendId: string)
  datatype Entry = Entry(backend: Backend, payload: Item, finished: bool)

  // ---------------------------------------------------------------- storing

  /** A history row, prompt content stripped, and its attachments by ordinal. */
  datatype Stored = Stored(id: nat, backend: Backend, payload: Item, finished: bool, attachments: seq<Image>)

  function Stripped(item: Item): Item {
    match item
    case UserPrompt(prompt, _) => UserPrompt(prompt, [])
    case Other(_, _) => item
  }

  function ImagesOf(content: seq<Content>): seq<Image> {
    if content == [] then []
    else ImagesOf(content[..|content| - 1])
         + match content[|content| - 1] case ImageContent(image) => [image] case OtherContent => []
  }

  function Images(item: Item): seq<Image> {
    if item.UserPrompt? then ImagesOf(item.content) else []
  }

  predicate DistinctIds(images: seq<Image>) {
    forall i, j | 0 <= i < j < |images| :: images[i].id != images[j].id
  }

  /** Storing an item fails, leaving nothing behind, when two of its images share an ordinal. */
  method InsertHistory(id: nat, backend: Backend, item: Item, finished: bool) returns (r: Result<Stored, string>)
    ensures r.Ok? <==> DistinctIds(Images(item))
    ensures r.Ok? ==> r.value == Stored(id, backend, Stripped(item), finished, Images(item))
  {
    var attachments: seq<Image> := [];
    if item.UserPrompt? {
      for i := 0 to |item.content|
        invariant attachments == ImagesOf(item.content[..i]) && DistinctIds(attachments)
      {
        assert item.content[..i + 1][..i] == item.content[..i];
        if item.content[i].ImageContent? {
          var image := item.content[i].image;
          if exists k :: 0 <= k < |attachments| && attachments[k].id == image.id {
            ghost var k :| 0 <= k < |attachments| && attachments[k].id == image.id;
            PrefixImages(item.content, i + 1);
            assert Images(item)[k].id == image.id && Images(item)[|attachments|].id == image.id;
            return Err("ordinal already taken");
          }
          attachments := attachments + [image];
        }
      }
      assert item.content[..|item.content|] == item.content;
    }
    r := Ok(Stored(id, backend, Stripped(item), finished, attachments));
  }

  lemma {:induction false} PrefixImages(content: seq<Content>, n: nat)
    requires n <= |content|
    ensures ImagesOf(content[..n]) <= ImagesOf(content)
    decreases |content| - n
  {
    if n < |content| {
      PrefixImages(content, n + 1);
      assert content[..n + 1][..n] == content[..n];
    } else {
      assert content[..n] == content;
    }
  }

  // ---------------------------------------------------------------- the left join

  /** Ascending by ordinal, as the query orders the attachments of one row. */
  function InsertSorted(image: Image, sorted: seq<Image>): seq<Image> {
    if sorted == [] || image.id <= sorted[0].id then [image] + sorted
    else [sorted[0]] + InsertSorted(image, sorted[1..])
  }

  function Sort(images: seq<Image>): seq<Image> {
    if images == [] then [] else InsertSorted(images[0], Sort(images[1..]))
  }

  predicate Ascending(images: seq<Image>) {
    forall i, j | 0 <= i < j < |images| :: images[i].id <= images[j].id
  }

  lemma {:induction false} InsertSortedHolds(image: Image, sorted: seq<Image>)
    ensures multiset(InsertSorted(image, sorted)) == multiset(sorted) + multiset{image}
  {
    if sorted != [] && image.id > sorted[0].id {
      InsertSortedHolds(image, sorted[1..]);
      assert sorted == [sorted[0]] + sorted[1..];
    }
  }

  lemma {:induction false} InsertSortedKeeps(image: Image, sorted: seq<Image>)
    requires Ascending(sorted)
    ensures Ascending(InsertSorted(image, sorted))
    ensures sorted != [] && sorted[0].id <= image.id ==> InsertSorted(image, sorted)[0].id >= sorted[0].id
  {
    if sorted != [] && image.id > sorted[0].id {
      InsertSortedKeeps(image, sorted[1..]);
      AscendingCons(sorted[0], InsertSorted(image, sorted[1..]));
    }
  }

  lemma AscendingCons(image: Image, rest: seq<Image>)
    requires Ascending(rest) && (rest == [] || image.id <= rest[0].id)
    ensures Ascending([image] + rest)
  {
  }

  /** The query's order: the same attachments, each as often, with ascending ordinals. */
  lemma {:induction false} SortIsOrder(images: seq<Image>)
    ensures Ascending(Sort(images)) && multiset(Sort(images)) == multiset(images)
  {
    if images != [] {
      SortIsOrder(images[1..]);
      InsertSortedKeeps(images[0], Sort(images[1..]));
      InsertSortedHolds(images[0], Sort(images[1..]));
      assert images == [images[0]] + images[1..];
    }
  }

  lemma {:induction false} SortedUnchanged(images: seq<Image>)
    requires Ascending(images)
    ensures Sort(images) == images
  {
    if images != [] {
      SortedUnchanged(images[1..]);
      assert images == [images[0]] + images[1..];
    }
  }

  datatype Row = Row(id: nat, backend: Backend, payload: Item, finished: bool, attachment: Option<Attachment>)

  /** The joined columns: ordinal, kind, media type and data are all present or all null. */
  datatype Attachment = Attachment(ordinal: nat, kind: string, mediaType: string, data: seq<byte>)

  function ImageRow(s: Stored, image: Image): Row {
    Row(s.id, s.backend, s.payload, s.finished, Some(Attachment(image.id, "image", image.mediaType, image.data)))
  }

  function ImageRows(s: Stored, images: seq<Image>): seq<Row> {
    seq(|images|, i requires 0 <= i < |images| => ImageRow(s, images[i]))
  }

  /** An item without attachments joins to one row of nulls. */
  function RowsOf(s: Stored): seq<Row> {
    if s.attachments == [] then [Row(s.id, s.backend, s.payload, s.finished, None)]
    else ImageRows(s, Sort(s.attachments))
  }

  function Join(table: seq<Stored>): seq<Row> {
    if table == [] then [] else Join(table[..|table| - 1]) + RowsOf(table[|table| - 1])
  }

  // ---------------------------------------------------------------- reading back

  function Pushed(item: Item, content: Content): Item {
    match item
    case UserPrompt(prompt, contents) => UserPrompt(prompt, contents + [content])
    case Other(_, _) => item
  }

  /** One row folded in: a new id opens an entry, an image goes to the last entry if it is a prompt. */
  function FoldRow(acc: (seq<Entry>, Option<nat>), row: Row): (seq<Entry>, Option<nat>) {
    var entries := if acc.1 != Some(row.id) then acc.0 + [Entry(row.backend, row.payload, row.finished)] else acc.0;
    (match row.attachment
     case Some(Attachment(ordinal, "image", mediaType, data)) =>
       if entries == [] then entries
       else entries[|entries| - 1 := entries[|entries| - 1].(
              payload := Pushed(entries[|entries| - 1].payload, ImageContent(Image(ordinal, mediaType, data))))]
     case _ => entries, Some(row.id))
  }

  function FoldRows(rows: seq<Row>): (seq<Entry>, Option<nat>) {
    if rows == [] then ([], None) else FoldRow(FoldRows(rows[..|rows| - 1]), rows[|rows| - 1])
  }

  method ReconstructHistory(rows: seq<Row>) returns (entries: seq<Entry>)
    ensures entries == FoldRows(rows).0
  {
    entries := [];
    var current: Option<nat> := None;
    for n := 0 to |rows|
      invariant (entries, current) == FoldRows(rows[..n])
    {
      var row := rows[n];
      assert rows[..n + 1][..n] == rows[..n];
      if current != Some(row.id) {
        current := Some(row.id);
        entries := entries + [Entry(row.backend, row.payload, row.finished)];
      }
      if row.attachment.None? { continue; }
      var Attachment(ordinal, kind, mediaType, data) := row.attachment.value;
      if kind != "image" { continue; }
      var content := ImageContent(Image(ordinal, mediaType, data));
      if entries != [] && entries[|entries| - 1].payload.UserPrompt? {
        var last := entries[|entries| - 1];
        var payload := UserPrompt(last.payload.prompt, last.payload.content + [content]);
        entries := entries[|entries| - 1 := last.(payload := payload)];
      } else if entries != [] {
        assert entries[|entries| - 1 := entries[|entries| - 1]] == entries;
      }
    }
    assert rows[..|rows|] == rows;
  }

  function AsContent(images: seq<Image>): seq<Content> {
    seq(|images|, i requires 0 <= i < |images| => ImageContent(images[i]))
  }

  /** What reading back an item should give: its images, ascending, and no other content. */
  function Restored(item: Item): Item {
    match item
    case UserPrompt(prompt, content) => UserPrompt(prompt, AsContent(Sort(ImagesOf(content))))
    case Other(_, _) => item
  }

  datatype Record = Record(id: nat, backend: Backend, item: Item, finished: bool)

  function StoreOf(r: Record): Stored {
    Stored(r.id, r.backend, Stripped(r.item), r.finished, Images(r.item))
  }

  function EntryOf(r: Record): Entry {
    Entry(r.backend, Restored(r.item), r.finished)
  }

  function Table(records: seq<Record>): seq<Stored> {
    seq(|records|, i requires 0 <= i < |records| => StoreOf(records[i]))
  }

  function Entries(records: seq<Record>): seq<Entry> {
    seq(|records|, i requires 0 <= i < |records| => EntryOf(records[i]))
  }

  lemma {:induction false} FoldConcat(a: seq<Row>, b: seq<Row>)
    ensures FoldRows(a + b) == FoldFrom(FoldRows(a), b)
  {
    if b == [] {
      assert a + b == a;
    } else {
      FoldConcat(a, b[..|b| - 1]);
      assert (a + b)[..|a + b| - 1] == a + b[..|b| - 1];
    }
  }

  function FoldFrom(acc: (seq<Entry>, Option<nat>), rows: seq<Row>): (seq<Entry>, Option<nat>) {
    if rows == [] then acc else FoldRow(FoldFrom(acc, rows[..|rows| - 1]), rows[|rows| - 1])
  }

  /** The entry of a prompt once these images have been folded in. */
  function PromptEntry(s: Stored, images: seq<Image>): Entry
    requires s.payload.UserPrompt?
  {
    Entry(s.backend, UserPrompt(s.payload.prompt, AsContent(images)), s.finished)
  }

  lemma FirstImage(before: seq<Entry>, current: Option<nat>, s: Stored, image: Image)
    requires current != Some(s.id) && s.payload.UserPrompt? && s.payload.content == []
    ensures FoldRow((before, current), ImageRow(s, image)) == (before + [PromptEntry(s, [image])], Some(s.id))
  {
    assert AsContent([image]) == [] + [ImageContent(image)];
    LastReplaced(before, Entry(s.backend, s.payload, s.finished), PromptEntry(s, [image]));
  }

  lemma LastReplaced<T>(before: seq<T>, x: T, y: T)
    ensures (before + [x])[|before + [x]| - 1 := y] == before + [y]
  {
  }

  lemma NextImage(before: seq<Entry>, s: Stored, front: seq<Image>, image: Image)
    requires s.payload.UserPrompt?
    ensures FoldRow((before + [PromptEntry(s, front)], Some(s.id)), ImageRow(s, image))
         == (before + [PromptEntry(s, front + [image])], Some(s.id))
  {
    assert AsContent(front + [image]) == AsContent(front) + [ImageContent(image)];
    LastReplaced(before, PromptEntry(s, front), PromptEntry(s, front + [image]));
  }

  /** The image rows of one prompt, folded after other items, add one entry with these images. */
  lemma {:induction false} FoldImages(before: seq<Entry>, current: Option<nat>, s: Stored, images: seq<Image>)
    requires current != Some(s.id) && s.payload.UserPrompt? && s.payload.content == [] && images != []
    ensures FoldFrom((before, current), ImageRows(s, images)) == (before + [PromptEntry(s, images)], Some(s.id))
  {
    var front, last := images[..|images| - 1], images[|images| - 1];
    assert images == front + [last];
    assert ImageRows(s, images)[..|images| - 1] == ImageRows(s, front);
    assert ImageRows(s, images)[|images| - 1] == ImageRow(s, last);
    if front == [] {
      FirstImage(before, current, s, last);
    } else {
      FoldImages(before, current, s, front);
      NextImage(before, s, front, last);
    }
  }

  /** The rows of one stored item, folded after others, add exactly its entry. */
  lemma {:induction false} FoldItem(before: seq<Entry>, current: Option<nat>, r: Record)
    requires current != Some(r.id)
    ensures FoldFrom((before, current), RowsOf(StoreOf(r))) == (before + [EntryOf(r)], Some(r.id))
  {
    var s := StoreOf(r);
    if s.attachments == [] {
      FoldBare(before, current, s);
      assert AsContent(Sort([])) == [];
    } else {
      SortIsOrder(s.attachments);
      assert Sort(s.attachments) != [] by { assert |multiset(Sort(s.attachments))| == |multiset(s.attachments)|; }
      FoldImages(before, current, s, Sort(s.attachments));
    }
  }

  predicate Ordered(records: seq<Record>) {
    forall i | 0 < i < |records| :: records[i - 1].id < records[i].id
  }

  function LastId(records: seq<Record>): Option<nat> {
    if records == [] then None else Some(records[|records| - 1].id)
  }

  predicate ReadsBack(records: seq<Record>) {
    FoldRows(Join(Table(records))) == (Entries(records), LastId(records))
  }

  /** What an entry read back must have of the item stored: its backend and whether it was finished, and
      all of it, or for a prompt its words and its images, ascending by ordinal, and no other content. */
  predicate Restores(entry: Entry, r: Record) {
    && entry.backend == r.backend && entry.finished == r.finished
    && match r.item
       case Other(_, _) => entry.payload == r.item
       case UserPrompt(prompt, content) =>
         && entry.payload.UserPrompt? && entry.payload.prompt == prompt
         && (forall k | 0 <= k < |entry.payload.content| :: entry.payload.content[k].ImageContent?)
         && Ascending(ImagesOf(entry.payload.content))
         && multiset(ImagesOf(entry.payload.content)) == multiset(ImagesOf(content))
  }

  lemma EntryRestores(r: Record)
    ensures Restores(EntryOf(r), r)
  {
    if r.item.UserPrompt? {
      ImagesOfContent(Sort(ImagesOf(r.item.content)));
      SortIsOrder(ImagesOf(r.item.content));
    }
  }

  /** Reading back what was stored gives one entry per item, in order, and each prompt gets its own
      images back, ascending by ordinal. */
  lemma HistoryRoundTrip(records: seq<Record>)
    requires Ordered(records)
    ensures var entries := FoldRows(Join(Table(records))).0;
            |entries| == |records| && forall i | 0 <= i < |records| :: Restores(entries[i], records[i])
  {
    ReadBackUpTo(records, |records|);
    assert records[..|records|] == records;
    forall i | 0 <= i < |records| { EntryRestores(records[i]); }
  }

  lemma {:induction false} ReadBackUpTo(records: seq<Record>, n: nat)
    requires Ordered(records) && n <= |records|
    ensures ReadsBack(records[..n])
  {
    if n == 0 {
      NothingReadsBack();
    } else {
      ReadBackUpTo(records, n - 1);
      assert records[..n] == records[..n - 1] + [records[n - 1]];
      ItemAppended(records[..n - 1], records[n - 1]);
    }
  }

  lemma NothingReadsBack()
    ensures ReadsBack([])
  {
    assert Table([]) == [] && Entries([]) == [];
  }

  lemma ItemAppended(front: seq<Record>, r: Record)
    requires ReadsBack(front) && LastId(front) != Some(r.id)
    ensures ReadsBack(front + [r])
  {
    var rows, more := Join(Table(front)), RowsOf(StoreOf(r));
    assert Join(Table(front + [r])) == rows + more by { JoinLast(front, r); }
    assert FoldRows(rows + more) == FoldFrom((Entries(front), LastId(front)), more) by { FoldConcat(rows, more); }
    FoldItem(Entries(front), LastId(front), r);
    EntriesLast(front, r);
  }

  lemma EntriesLast(front: seq<Record>, r: Record)
    ensures Entries(front + [r]) == Entries(front) + [EntryOf(r)] && LastId(front + [r]) == Some(r.id)
  {
  }

  lemma JoinLast(front: seq<Record>, r: Record)
    ensures Join(Table(front + [r])) == Join(Table(front)) + RowsOf(StoreOf(r))
  {
    var table := Table(front + [r]);
    assert table[..|table| - 1] == Table(front);
  }

  lemma {:induction false} FoldBare(before: seq<Entry>, current: Option<nat>, s: Stored)
    requires current != Some(s.id)
    ensures FoldFrom((before, current), [Row(s.id, s.backend, s.payload, s.finished, None)])
         == (before + [Entry(s.backend, s.payload, s.finished)], Some(s.id))
  {
    var row := Row(s.id, s.backend, s.payload, s.finished, None);
    assert [row][..0] == [];
  }

  lemma {:induction false} ImagesOfContent(images: seq<Image>)
    ensures ImagesOf(AsContent(images)) == images
  {
    if images != [] {
      var front := images[..|images| - 1];
      ImagesOfContent(front);
      assert AsContent(images)[..|images| - 1] == AsContent(front);
      assert images == front + [images[|images| - 1]];
    }
  }

  /** The images of a prompt are its image contents one by one, in order, and nothing else. */
  lemma {:induction false} ImagesOfConcat(a: seq<Content>, b: seq<Content>)
    ensures ImagesOf(a + b) == ImagesOf(a) + ImagesOf(b)
    ensures forall image :: ImagesOf([ImageContent(image)]) == [image]
    ensures ImagesOf([OtherContent]) == []
  {
    forall content: Content ensures [content][..0] == [] {}
    if b == [] {
      assert a + b == a;
    } else {
      var front := b[..|b| - 1];
      ImagesOfConcat(a, front);
      assert (a + b)[..|a + b| - 1] == a + front;
    }
  }

  /** A prompt whose content is images in ascending order is restored unchanged. */
  lemma OrderedPromptRestored(prompt: string, images: seq<Image>)
    requires Ascending(images)
    ensures Restored(UserPrompt(prompt, AsContent(images))) == UserPrompt(prompt, AsContent(images))
  {
    ImagesOfContent(images);
    SortedUnchanged(images);
  }
}
