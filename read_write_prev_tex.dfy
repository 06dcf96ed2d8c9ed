/**
 * The triple-buffered field store: three textures held in a read, a write
 * and a prev slot, and the rotations that permute them.
 *
 * The pure part (`Triple`, `Rotation`, `Rotate`, `RotateAll`) describes slot
 * assignments as values; the class `ReadWritePrevTex` holds the textures and
 * is specified by it.
 */
module ReadWritePrev {
  import opened Textures

  datatype Slot = ReadSlot | WriteSlot | PrevSlot

  /** What the three slots hold. */
  datatype Triple<T> = Triple(read: T, write: T, prev: T) {
    function At(slot: Slot): T {
      match slot
      case ReadSlot => read
      case WriteSlot => write
      case PrevSlot => prev
    }
  }

  predicate Distinct<T(==)>(s: Triple<T>) {
    s.read != s.write && s.write != s.prev && s.read != s.prev
  }

  function Members<T>(s: Triple<T>): set<T> {
    {s.read, s.write, s.prev}
  }

  /**
   * A rotation says, for each slot, which slot's occupant moves into it:
   * after rotating, the read slot holds what was in `toRead`, and so on.
   */
  datatype Rotation = Rotation(toRead: Slot, toWrite: Slot, toPrev: Slot) {
    predicate IsPermutation() {
      toRead != toWrite && toWrite != toPrev && toRead != toPrev
    }
  }

  /** `swap`: read and write exchange their textures. */
  const SwapRotation: Rotation := Rotation(WriteSlot, ReadSlot, PrevSlot)

  /** `commit`: prev and write exchange their textures. */
  const CommitRotation: Rotation := Rotation(ReadSlot, PrevSlot, WriteSlot)

  function Rotate<T(==)>(s: Triple<T>, r: Rotation): (t: Triple<T>)
    ensures r.IsPermutation() ==> Members(t) == Members(s)
    ensures r.IsPermutation() && Distinct(s) ==> Distinct(t)
  {
    Triple(s.At(r.toRead), s.At(r.toWrite), s.At(r.toPrev))
  }

  /** The assignment after applying `rs` in order, the last one last. */
  function RotateAll<T(==)>(s: Triple<T>, rs: seq<Rotation>): Triple<T>
    decreases |rs|
  {
    if rs == [] then s else Rotate(RotateAll(s, rs[..|rs| - 1]), rs[|rs| - 1])
  }

  /** `k` copies of one rotation. */
  function Repeat(r: Rotation, k: nat): (rs: seq<Rotation>)
    ensures |rs| == k && forall i :: 0 <= i < k ==> rs[i] == r
  {
    if k == 0 then [] else Repeat(r, k - 1) + [r]
  }

  predicate AllPermutations(rs: seq<Rotation>) {
    forall i :: 0 <= i < |rs| ==> rs[i].IsPermutation()
  }

  lemma SwapExchangesReadWrite<T>(s: Triple<T>)
    ensures Rotate(s, SwapRotation) == Triple(s.write, s.read, s.prev)
  {
  }

  lemma SwapInvolution<T>(s: Triple<T>)
    ensures Rotate(Rotate(s, SwapRotation), SwapRotation) == s
  {
  }

  lemma CommitExchangesPrevWrite<T>(s: Triple<T>)
    ensures Rotate(s, CommitRotation) == Triple(s.read, s.prev, s.write)
  {
  }

  lemma CommitInvolution<T>(s: Triple<T>)
    ensures Rotate(Rotate(s, CommitRotation), CommitRotation) == s
  {
  }

  /**
   * Any sequence of permutations (swap, commit, or whatever `flip` is) keeps
   * the same three occupants, so three distinct textures stay distinct.
   */
  lemma {:induction false} RotateAllPermutes<T>(s: Triple<T>, rs: seq<Rotation>)
    requires AllPermutations(rs)
    ensures Members(RotateAll(s, rs)) == Members(s)
    ensures Distinct(s) ==> Distinct(RotateAll(s, rs))
    decreases |rs|
  {
    if rs != [] {
      var front := rs[..|rs| - 1];
      assert AllPermutations(front) by {
        forall i | 0 <= i < |front| ensures front[i].IsPermutation() {
          assert front[i] == rs[i];
        }
      }
      RotateAllPermutes(s, front);
      assert rs[|rs| - 1].IsPermutation();
    }
  }

  /** Splitting off the last rotation of a sequence, as the loops that rotate once per round need. */
  lemma RotateAllSnoc<T>(s: Triple<T>, rs: seq<Rotation>, r: Rotation)
    ensures RotateAll(s, rs + [r]) == Rotate(RotateAll(s, rs), r)
  {
    assert (rs + [r])[..|rs + [r]| - 1] == rs;
  }

  /** Rotating by `a` and then by `b` is rotating by `a + b`. */
  lemma {:induction false} RotateAllAppend<T>(s: Triple<T>, a: seq<Rotation>, b: seq<Rotation>)
    ensures RotateAll(s, a + b) == RotateAll(RotateAll(s, a), b)
    decreases |b|
  {
    if b == [] {
      assert a + b == a;
    } else {
      var front := b[..|b| - 1];
      var last := b[|b| - 1];
      assert a + b == (a + front) + [last];
      assert b == front + [last];
      RotateAllSnoc(s, a + front, last);
      RotateAllAppend(s, a, front);
      RotateAllSnoc(RotateAll(s, a), front, last);
    }
  }

  /** The labels of the textures in the three slots. */
  function NamesOf(s: Triple<Texture>): Triple<string> {
    Triple(s.read.name, s.write.name, s.prev.name)
  }

  /** Rotating textures moves their labels with them. */
  lemma {:induction false} NamesFollowRotations(s: Triple<Texture>, rs: seq<Rotation>)
    ensures NamesOf(RotateAll(s, rs)) == RotateAll(NamesOf(s), rs)
    decreases |rs|
  {
    if rs != [] {
      NamesFollowRotations(s, rs[..|rs| - 1]);
    }
  }

  /** The labels of textures 0, 1 and 2 of one field differ. */
  lemma LabelsDiffer(base: string)
    ensures Distinct(Triple(TextureLabel(base, 0), TextureLabel(base, 1), TextureLabel(base, 2)))
  {
    var p := base + " RWP #";
    assert TextureLabel(base, 0)[|p|] == '0';
    assert TextureLabel(base, 1)[|p|] == '1';
    assert TextureLabel(base, 2)[|p|] == '2';
  }

  /** A zero-based index rendered as the decimal digits of a label. */
  function Digits(i: nat): string
    decreases i
  {
    if i < 10 then [(48 + i) as char] else Digits(i / 10) + [(48 + i % 10) as char]
  }

  /** The label of texture number `i` of a field whose descriptor label is `base`. */
  function TextureLabel(base: string, i: nat): string {
    base + " RWP #" + Digits(i)
  }

  /** A descriptor without a label is named "<unnamed>". */
  function BaseLabel(descriptorLabel: Option<string>): string {
    match descriptorLabel
    case Some(l) => l
    case None => "<unnamed>"
  }

  datatype Option<T> = None | Some(value: T)

  class ReadWritePrevTex {
    /** The descriptor's format, shared by the three textures. */
    const format: Format
    /** The labels of the three textures, whatever slots they currently occupy. */
    ghost const Labels: set<string>

    var readTex: Texture
    var writeTex: Texture
    var prevTex: Texture

    function Slots(): Triple<Texture>
      reads this
    {
      Triple(readTex, writeTex, prevTex)
    }

    /** The labels of the textures in the three slots: they say which texture sits where. */
    function Names(): Triple<string>
      reads this
    {
      NamesOf(Slots())
    }

    /** Three differently labelled textures, all of the descriptor's format. */
    ghost predicate Valid()
      reads this
    {
      && Distinct(Names())
      && Members(Names()) == Labels
      && readTex.format == format && writeTex.format == format && prevTex.format == format
    }

    /** All three textures hold an (n + 2) x (n + 2) grid. */
    ghost predicate Sized(n: nat)
      reads this
    {
      IsGrid(readTex.texels, n) && IsGrid(writeTex.texels, n) && IsGrid(prevTex.texels, n)
    }

    /** All three textures hold zero everywhere. */
    ghost predicate AllZero()
      reads this
    {
      IsZero(readTex.texels) && IsZero(writeTex.texels) && IsZero(prevTex.texels)
    }

    /**
     * Creates three textures from one descriptor, numbered 0, 1, 2 in their
     * labels; when initial data is given it is written into every one of them.
     * Texture 0 becomes the read texture, 1 the write texture, 2 the prev texture.
     */
    constructor (descriptorLabel: Option<string>, format: Format, n: nat, initialData: Option<Grid>)
      requires initialData.Some? ==> IsGrid(initialData.value, n)
      ensures Valid() && Sized(n) && this.format == format && Labels == Members(Names())
      ensures Names() == Triple(TextureLabel(BaseLabel(descriptorLabel), 0),
                                TextureLabel(BaseLabel(descriptorLabel), 1),
                                TextureLabel(BaseLabel(descriptorLabel), 2))
      ensures var contents := if initialData.Some? then initialData.value else ZeroGrid(n);
        readTex.texels == contents && writeTex.texels == contents && prevTex.texels == contents
    {
      var base := BaseLabel(descriptorLabel);
      var textures: seq<Texture> := [];
      var i := 0;
      while i < 3
        invariant 0 <= i <= 3 && |textures| == i
        invariant forall j :: 0 <= j < i ==>
          && textures[j].name == TextureLabel(base, j) && textures[j].format == format
          && textures[j].texels == (if initialData.Some? then initialData.value else ZeroGrid(n))
      {
        var t := Texture(TextureLabel(base, i), format, ZeroGrid(n));
        if initialData.Some? {
          t := t.(texels := initialData.value);
        }
        textures := textures + [t];
        i := i + 1;
      }
      LabelsDiffer(base);
      this.format := format;
      readTex := textures[0];
      writeTex := textures[1];
      prevTex := textures[2];
      Labels := {textures[0].name, textures[1].name, textures[2].name};
    }

    method Swap()
      requires Valid()
      modifies this
      ensures Valid()
      ensures Slots() == Rotate(old(Slots()), SwapRotation)
      ensures Names() == Rotate(old(Names()), SwapRotation)
    {
      readTex, writeTex := writeTex, readTex;
    }

    method Commit()
      requires Valid()
      modifies this
      ensures Valid()
      ensures Slots() == Rotate(old(Slots()), CommitRotation)
      ensures Names() == Rotate(old(Names()), CommitRotation)
    {
      prevTex, writeTex := writeTex, prevTex;
    }

    /**
     * The rotation the host code calls `flip()`. The class as written does
     * not define it; it is taken to be some permutation of the three slots.
     */
    method Flip(rotation: Rotation)
      requires Valid() && rotation.IsPermutation()
      modifies this
      ensures Valid()
      ensures Slots() == Rotate(old(Slots()), rotation)
      ensures Names() == Rotate(old(Names()), rotation)
    {
      var s := Rotate(Slots(), rotation);
      readTex, writeTex, prevTex := s.read, s.write, s.prev;
    }
  }
}
