/**
  The aggregation at the top of `generate_pie_chart`: the `thermostat` column
  is counted per tag (`value_counts`) and each tag that occurs becomes one
  slice, labelled and coloured from fixed tables.
*/
module PieChart {
  import opened Impact

  /** One wedge of the pie: the tag it stands for (an entry of the
      `value_counts` index), its legend label, its colour and its size. */
  datatype Slice = Slice(tag: Tag, legend: string, color: string, count: nat)

  /** The `labels` table. */
  function Label(t: Tag): string {
    match t
    case Green => "No Impact"
    case Yellow => "Medium Impact"
    case Red => "High Impact"
  }

  /** The `colors` table: each tag is drawn in the colour of its own name. */
  function Color(t: Tag): string {
    Name(t)
  }

  /** How many entries of the column carry tag `t`. */
  function Count(tags: seq<Tag>, t: Tag): (c: nat)
    ensures c <= |tags|
  {
    if tags == [] then 0
    else Count(tags[..|tags| - 1], t) + (if tags[|tags| - 1] == t then 1 else 0)
  }

  /** The fold agrees with the multiplicity of `t` in the column. */
  lemma {:induction false} CountIsMultiplicity(tags: seq<Tag>, t: Tag)
    ensures Count(tags, t) == multiset(tags)[t]
  {
    if tags != [] {
      var init := tags[..|tags| - 1];
      CountIsMultiplicity(init, t);
      assert tags == init + [tags[|tags| - 1]];
    }
  }

  lemma {:induction false} CountPositiveIff(tags: seq<Tag>, t: Tag)
    ensures Count(tags, t) > 0 <==> t in tags
  {
    if tags != [] {
      var init := tags[..|tags| - 1];
      CountPositiveIff(init, t);
      assert tags == init + [tags[|tags| - 1]];
    }
  }

  /** Every entry is counted under exactly one tag. */
  lemma {:induction false} CountsSumToLength(tags: seq<Tag>)
    ensures Count(tags, Green) + Count(tags, Yellow) + Count(tags, Red) == |tags|
  {
    if tags != [] {
      CountsSumToLength(tags[..|tags| - 1]);
    }
  }

  /** `value_counts()`: the tags that occur, each with its number of entries. */
  function ValueCounts(tags: seq<Tag>): (counts: map<Tag, nat>)
    ensures forall t :: t in counts <==> t in tags
    ensures forall t :: t in counts ==> counts[t] == Count(tags, t) && counts[t] > 0
  {
    forall t ensures Count(tags, t) > 0 <==> t in tags {
      CountPositiveIff(tags, t);
    }
    map t | t in tags :: Count(tags, t)
  }

  /** The slice of tag `t`, present when `t` has a count (the comprehension
      over the index of `value_counts`). */
  function SliceOf(t: Tag, counts: map<Tag, nat>): (slices: seq<Slice>)
    ensures |slices| <= 1
    ensures |slices| == 1 <==> t in counts
    ensures |slices| == 1 ==> slices[0] == Slice(t, Label(t), Color(t), counts[t])
  {
    if t in counts then [Slice(t, Label(t), Color(t), counts[t])] else []
  }

  /** The tags that have a slice, in slice order. */
  function SliceTags(slices: seq<Slice>): seq<Tag> {
    seq(|slices|, j requires 0 <= j < |slices| => slices[j].tag)
  }

  /** The size of the whole pie. */
  function Total(slices: seq<Slice>): nat {
    if slices == [] then 0 else slices[0].count + Total(slices[1..])
  }

  lemma {:induction false} TotalAppend(a: seq<Slice>, b: seq<Slice>)
    ensures Total(a + b) == Total(a) + Total(b)
  {
    if a == [] {
      assert a + b == b;
    } else {
      assert (a + b)[1..] == a[1..] + b;
      TotalAppend(a[1..], b);
    }
  }

  /** The slices of `generate_pie_chart`: one per tag that occurs, labelled and
      coloured for that tag, sized by its count. */
  function PieSlices(tags: seq<Tag>): (slices: seq<Slice>)
    ensures forall t :: t in SliceTags(slices) <==> t in tags
    ensures forall i, j :: 0 <= i < j < |slices| ==> slices[i].tag != slices[j].tag
    ensures forall j :: 0 <= j < |slices| ==>
      && slices[j].legend == Label(slices[j].tag)
      && slices[j].color == Color(slices[j].tag)
      && slices[j].count == Count(tags, slices[j].tag) > 0
  {
    var counts := ValueCounts(tags);
    var g, y, r := SliceOf(Green, counts), SliceOf(Yellow, counts), SliceOf(Red, counts);
    assert SliceTags(g) == if Green in counts then [Green] else [];
    assert SliceTags(y) == if Yellow in counts then [Yellow] else [];
    assert SliceTags(r) == if Red in counts then [Red] else [];
    assert SliceTags(g + y + r) == SliceTags(g) + SliceTags(y) + SliceTags(r);
    g + y + r
  }

  /** The slice sizes add up to the number of rows. */
  lemma PieTotal(tags: seq<Tag>)
    ensures Total(PieSlices(tags)) == |tags|
  {
    var counts := ValueCounts(tags);
    var g, y, r := SliceOf(Green, counts), SliceOf(Yellow, counts), SliceOf(Red, counts);
    TotalAppend(g, y);
    TotalAppend(g + y, r);
    CountsSumToLength(tags);
    CountPositiveIff(tags, Green);
    CountPositiveIff(tags, Yellow);
    CountPositiveIff(tags, Red);
  }
}
