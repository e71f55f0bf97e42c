/** Surface material stored per bin: a table of material properties over the
    bins of a surface, addressed through a bin utility. */
module SurfaceMaterials {

  import opened Materials

  /** A local position on a surface and a global position in space. */
  datatype Vector2D = Vector2D(x: real, y: real)
  datatype Vector3D = Vector3D(x: real, y: real, z: real)

  /** The bin on the first axis and the bin on the second axis. */
  datatype BinPair = BinPair(bin0: nat, bin1: nat)

  /** The bin utility: the number of bins on each axis and the maps from a
      local or a global position to the bin it falls into. How a position is
      binned is the utility's own business and is left abstract here. */
  datatype BinUtility = BinUtility(
    bins0: nat,
    bins1: nat,
    localBins: Vector2D -> BinPair,
    globalBins: Vector3D -> BinPair)

  /** A bin pair inside the utility's declared bins. */
  predicate InRange(bu: BinUtility, b: BinPair) {
    b.bin0 < bu.bins0 && b.bin1 < bu.bins1
  }

  /** Every position is mapped to a bin inside the declared range (positions
      outside the binned region are clamped by the utility). */
  ghost predicate ClampsToRange(bu: BinUtility) {
    (forall lp :: InRange(bu, bu.localBins(lp))) &&
    (forall gp :: InRange(bu, bu.globalBins(gp)))
  }

  /** A matrix with `rows` rows of `cols` cells each. */
  predicate HasShape(m: seq<seq<MaterialProperties>>, rows: nat, cols: nat) {
    |m| == rows && forall r :: 0 <= r < |m| ==> |m[r]| == cols
  }

  /** Every cell of the matrix is a well-formed material value. */
  predicate AllConsistent(m: seq<seq<MaterialProperties>>) {
    forall r, c :: 0 <= r < |m| && 0 <= c < |m[r]| ==> Consistent(m[r][c])
  }

  class BinnedSurfaceMaterial {
    /** The helper for finding bins. */
    var binUtility: BinUtility
    /** The material, indexed `[bin1][bin0]`. */
    var fullMaterial: seq<seq<MaterialProperties>>
    /** Split of the recorded material between before and after the surface:
        0 along the momentum (the default), 1 opposite to it. */
    var splitFactor: real
    /** The number of mapping entries that went into the material. */
    var entries: nat

    /** The matrix has one row per bin on the second axis and one cell per bin
        on the first, so every bin the utility yields addresses a cell. */
    ghost predicate Valid()
      reads this`binUtility, this`fullMaterial
    {
      ClampsToRange(binUtility) &&
      HasShape(fullMaterial, binUtility.bins1, binUtility.bins0) &&
      AllConsistent(fullMaterial)
    }

    /** The one-dimensional constructor: the vector becomes the single row. */
    constructor FromVector(bu: BinUtility, fullProperties: seq<MaterialProperties>,
                           splitFactor: real := 0.0, entries: nat := 1)
      requires ClampsToRange(bu)
      requires bu.bins1 == 1 && bu.bins0 == |fullProperties|
      requires forall i :: 0 <= i < |fullProperties| ==> Consistent(fullProperties[i])
      ensures Valid()
      ensures binUtility == bu && fullMaterial == [fullProperties]
      ensures this.splitFactor == splitFactor && this.entries == entries
      ensures forall i :: 0 <= i < |fullProperties| ==> MaterialAt(i, 0) == fullProperties[i]
    {
      binUtility := bu;
      fullMaterial := [fullProperties];
      this.splitFactor := splitFactor;
      this.entries := entries;
    }

    /** The two-dimensional constructor. */
    constructor FromMatrix(bu: BinUtility, fullProperties: seq<seq<MaterialProperties>>,
                           splitFactor: real := 0.0, entries: nat := 1)
      requires ClampsToRange(bu)
      requires HasShape(fullProperties, bu.bins1, bu.bins0)
      requires AllConsistent(fullProperties)
      ensures Valid()
      ensures binUtility == bu && fullMaterial == fullProperties
      ensures this.splitFactor == splitFactor && this.entries == entries
      ensures forall b :: InRange(bu, b) ==>
                MaterialAt(b.bin0, b.bin1) == fullProperties[b.bin1][b.bin0]
    {
      binUtility := bu;
      fullMaterial := fullProperties;
      this.splitFactor := splitFactor;
      this.entries := entries;
    }

    /** The copy constructor. */
    constructor Copy(bsm: BinnedSurfaceMaterial)
      requires bsm.Valid()
      ensures Valid()
      ensures binUtility == bsm.binUtility && fullMaterial == bsm.fullMaterial
      ensures splitFactor == bsm.splitFactor && entries == bsm.entries
    {
      binUtility := bsm.binUtility;
      fullMaterial := bsm.fullMaterial;
      splitFactor := bsm.splitFactor;
      entries := bsm.entries;
    }

    /** `clone()`: a new, independent object with the same contents. */
    method Clone() returns (c: BinnedSurfaceMaterial)
      requires Valid()
      ensures fresh(c) && c.Valid()
      ensures c.binUtility == binUtility && c.fullMaterial == fullMaterial
      ensures c.splitFactor == splitFactor && c.entries == entries
    {
      c := new BinnedSurfaceMaterial.Copy(this);
    }

    /** Assignment: take over the other object's contents, unless it is this
        object itself. */
    method Assign(lmp: BinnedSurfaceMaterial)
      requires lmp.Valid()
      modifies this
      ensures Valid()
      ensures binUtility == old(lmp.binUtility) && fullMaterial == old(lmp.fullMaterial)
      ensures splitFactor == old(lmp.splitFactor) && entries == old(lmp.entries)
    {
      if lmp != this {
        splitFactor := lmp.splitFactor;
        ClearMaterial();
        binUtility := lmp.binUtility;
        FillMaterial(lmp.fullMaterial);
        assert fullMaterial == [] + lmp.fullMaterial;
        entries := lmp.entries;
      }
    }

    /** Drop all the material. */
    method ClearMaterial()
      modifies this`fullMaterial
      ensures fullMaterial == []
    {
      fullMaterial := [];
    }

    /** Refill the material row by row and cell by cell from a matrix, after
        what is already there (nothing, after `ClearMaterial`). */
    method FillMaterial(matMatrix: seq<seq<MaterialProperties>>)
      modifies this`fullMaterial
      ensures fullMaterial == old(fullMaterial) + matMatrix
    {
      ghost var start := fullMaterial;
      var r := 0;
      while r < |matMatrix|
        invariant 0 <= r <= |matMatrix|
        invariant fullMaterial == start + matMatrix[..r]
      {
        var row: seq<MaterialProperties> := [];
        var c := 0;
        while c < |matMatrix[r]|
          invariant 0 <= c <= |matMatrix[r]|
          invariant row == matMatrix[r][..c]
        {
          row := row + [matMatrix[r][c]];
          c := c + 1;
        }
        assert row == matMatrix[r];
        assert matMatrix[..r + 1] == matMatrix[..r] + [matMatrix[r]];
        fullMaterial := fullMaterial + [row];
        r := r + 1;
      }
      assert matMatrix[..r] == matMatrix;
    }

    /** `operator*=`: scale every cell of the matrix in place; the bin utility,
        the shape of the matrix, the split factor and the entries stay. */
    method Scale(scale: real)
      requires Valid()
      modifies this`fullMaterial
      ensures Valid()
      ensures |fullMaterial| == |old(fullMaterial)|
      ensures forall r :: 0 <= r < |fullMaterial| ==> |fullMaterial[r]| == |old(fullMaterial)[r]|
      ensures forall r, c :: 0 <= r < |fullMaterial| && 0 <= c < |fullMaterial[r]| ==>
                fullMaterial[r][c] == Scaled(old(fullMaterial)[r][c], scale)
      ensures forall b :: InRange(binUtility, b) ==>
                MaterialAt(b.bin0, b.bin1) == Scaled(old(MaterialAt(b.bin0, b.bin1)), scale)
    {
      ghost var before := fullMaterial;
      var r := 0;
      while r < |fullMaterial|
        invariant 0 <= r <= |fullMaterial| == |before|
        invariant forall i :: 0 <= i < |before| ==> |fullMaterial[i]| == |before[i]|
        invariant forall i, j :: 0 <= i < r && 0 <= j < |before[i]| ==>
                    fullMaterial[i][j] == Scaled(before[i][j], scale)
        invariant forall i :: r <= i < |before| ==> fullMaterial[i] == before[i]
      {
        var c := 0;
        while c < |fullMaterial[r]|
          invariant |fullMaterial| == |before|
          invariant 0 <= c <= |fullMaterial[r]| == |before[r]|
          invariant forall i :: 0 <= i < |before| ==> |fullMaterial[i]| == |before[i]|
          invariant forall i, j :: 0 <= i < r && 0 <= j < |before[i]| ==>
                      fullMaterial[i][j] == Scaled(before[i][j], scale)
          invariant forall j :: 0 <= j < c ==> fullMaterial[r][j] == Scaled(before[r][j], scale)
          invariant forall j :: c <= j < |before[r]| ==> fullMaterial[r][j] == before[r][j]
          invariant forall i :: r < i < |before| ==> fullMaterial[i] == before[i]
        {
          fullMaterial := fullMaterial[r := fullMaterial[r][c := Scaled(fullMaterial[r][c], scale)]];
          c := c + 1;
        }
        r := r + 1;
      }
    }

    /** `material(bin0, bin1)`: the cell in row `bin1`, column `bin0`. On a
        valid object the indices it accepts are exactly the utility's bins. */
    function MaterialAt(bin0: nat, bin1: nat): (r: MaterialProperties)
      reads this`binUtility, this`fullMaterial
      requires bin1 < |fullMaterial| && bin0 < |fullMaterial[bin1]|
      ensures Valid() ==> InRange(binUtility, BinPair(bin0, bin1)) && Consistent(r)
    {
      fullMaterial[bin1][bin0]
    }

    /** `material(lp)`: the cell of the bin the local position falls into. */
    function MaterialAtLocal(lp: Vector2D): (r: MaterialProperties)
      reads this`binUtility, this`fullMaterial
      requires Valid()
      ensures InRange(binUtility, binUtility.localBins(lp))
      ensures r == MaterialAt(binUtility.localBins(lp).bin0, binUtility.localBins(lp).bin1)
    {
      var b := binUtility.localBins(lp);
      MaterialAt(b.bin0, b.bin1)
    }

    /** `material(gp)`: the cell of the bin the global position falls into. */
    function MaterialAtGlobal(gp: Vector3D): (r: MaterialProperties)
      reads this`binUtility, this`fullMaterial
      requires Valid()
      ensures InRange(binUtility, binUtility.globalBins(gp))
      ensures r == MaterialAt(binUtility.globalBins(gp).bin0, binUtility.globalBins(gp).bin1)
    {
      var b := binUtility.globalBins(gp);
      MaterialAt(b.bin0, b.bin1)
    }
  }

  /** Lookups read the bin utility and the matrix only: two objects that agree
      on those answer alike whatever their split factors and entries. */
  lemma LookupIgnoresSplitFactor(a: BinnedSurfaceMaterial, b: BinnedSurfaceMaterial,
                                 lp: Vector2D, gp: Vector3D)
    requires a.Valid()
    requires b.binUtility == a.binUtility && b.fullMaterial == a.fullMaterial
    ensures b.Valid()
    ensures a.MaterialAtLocal(lp) == b.MaterialAtLocal(lp)
    ensures a.MaterialAtGlobal(gp) == b.MaterialAtGlobal(gp)
  {
  }

  /** A clone is independent of its source: scaling the clone scales its
      cells and leaves the source as it was. */
  method CloneThenScale(bsm: BinnedSurfaceMaterial, scale: real)
    returns (c: BinnedSurfaceMaterial)
    requires bsm.Valid()
    ensures fresh(c) && c.Valid()
    ensures c.binUtility == bsm.binUtility && c.entries == bsm.entries
    ensures forall b :: InRange(bsm.binUtility, b) ==>
              c.MaterialAt(b.bin0, b.bin1) == Scaled(bsm.MaterialAt(b.bin0, b.bin1), scale)
    ensures bsm.fullMaterial == old(bsm.fullMaterial)
  {
    c := bsm.Clone();
    c.Scale(scale);
  }
}
