/** A sequence standing at an offset inside another. */
module Slices {

  predicate At<T(==)>(data: seq<T>, offset: nat, part: seq<T>) {
    offset + |part| <= |data| && data[offset..offset + |part|] == part
  }

  lemma AtSplit<T>(data: seq<T>, offset: nat, a: seq<T>, b: seq<T>)
    requires At(data, offset, a + b)
    ensures At(data, offset, a) && At(data, offset + |a|, b)
  {
    var whole := data[offset..offset + |a + b|];
    assert whole[..|a|] == a && whole[|a|..] == b;
    assert data[offset..offset + |a|] == whole[..|a|];
    assert data[offset + |a|..offset + |a| + |b|] == whole[|a|..];
  }
}
