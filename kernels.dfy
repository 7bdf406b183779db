/** The convolution kernels `apply_selected_filter` builds, with exact `real` weights. */
module Kernels {
  import opened Optional

  /** A matrix of weights, stored row by row. */
  type Kernel = seq<seq<real>>

  /** `m` has `n` rows of `n` weights each. */
  predicate IsSquare(m: Kernel, n: nat) {
    |m| == n && forall i :: 0 <= i < |m| ==> |m[i]| == n
  }

  function RowSum(row: seq<real>): real {
    if row == [] then 0.0 else row[0] + RowSum(row[1..])
  }

  /** The sum of all weights of the kernel. */
  function KernelSum(m: Kernel): real {
    if m == [] then 0.0 else RowSum(m[0]) + KernelSum(m[1..])
  }

  /** `np.ones((k, k)) / (k * k)`: the box filter of side `k`. For `k == 0` it is the empty
      matrix, as numpy's division of an empty array is. */
  function BoxKernel(k: nat): (m: Kernel)
    ensures IsSquare(m, k)
    ensures forall i, j :: 0 <= i < k && 0 <= j < k ==> m[i][j] * (k * k) as real == 1.0
  {
    seq(k, i requires 0 <= i < k => seq(k, j requires 0 <= j < k => 1.0 / (k * k) as real))
  }

  /** The fixed 3x3 sharpening kernel: centre 9, the eight neighbours -1. */
  function SharpenKernel(): (m: Kernel)
    ensures IsSquare(m, 3)
    ensures KernelSum(m) == 1.0
  {
    [[-1.0, -1.0, -1.0], [-1.0, 9.0, -1.0], [-1.0, -1.0, -1.0]]
  }

  /** The fixed 3x3 edge-detection kernel: centre 8, the eight neighbours -1. */
  function EdgeKernel(): (m: Kernel)
    ensures IsSquare(m, 3)
    ensures KernelSum(m) == 0.0
  {
    [[-1.0, -1.0, -1.0], [-1.0, 8.0, -1.0], [-1.0, -1.0, -1.0]]
  }

  /** The branch of `apply_selected_filter`: the kernel for the chosen filter type, or None
      when the type is none of the three names, in which case no filter is applied. */
  function SelectKernel(filterType: string, kernelSize: nat): (r: Option<Kernel>)
    ensures r.Some? <==> filterType in {"Blur", "Sharpen", "Edge Detection"}
    ensures filterType == "Blur" ==> r == Some(BoxKernel(kernelSize))
    ensures filterType == "Sharpen" ==> r == Some(SharpenKernel())
    ensures filterType == "Edge Detection" ==> r == Some(EdgeKernel())
  {
    if filterType == "Blur" then Some(BoxKernel(kernelSize))
    else if filterType == "Sharpen" then Some(SharpenKernel())
    else if filterType == "Edge Detection" then Some(EdgeKernel())
    else None
  }

  lemma {:induction false} RowSumConstant(row: seq<real>, c: real)
    requires forall j :: 0 <= j < |row| ==> row[j] == c
    ensures RowSum(row) == |row| as real * c
  {
    if row != [] {
      RowSumConstant(row[1..], c);
    }
  }

  lemma {:induction false} KernelSumConstantRows(m: Kernel, s: real)
    requires forall i :: 0 <= i < |m| ==> RowSum(m[i]) == s
    ensures KernelSum(m) == |m| as real * s
  {
    if m != [] {
      KernelSumConstantRows(m[1..], s);
    }
  }

  /** A box kernel of positive side averages: its weights sum to 1. */
  lemma BoxKernelSumsToOne(k: nat)
    requires k >= 1
    ensures KernelSum(BoxKernel(k)) == 1.0
  {
    var m := BoxKernel(k);
    var w := 1.0 / (k * k) as real;
    forall i | 0 <= i < k ensures RowSum(m[i]) == 1.0 / k as real {
      RowSumConstant(m[i], w);
      assert (k * k) as real == k as real * k as real;
    }
    KernelSumConstantRows(m, 1.0 / k as real);
  }

  /** Whatever the slider gives, the selected kernel preserves brightness (weights sum to 1)
      unless it is the edge detector, whose weights cancel out; sharpen and edge detection
      do not depend on the kernel size. */
  lemma SelectedKernelSum(filterType: string, kernelSize: nat, otherSize: nat)
    requires kernelSize >= 1
    ensures SelectKernel(filterType, kernelSize).Some? ==>
              KernelSum(SelectKernel(filterType, kernelSize).value)
                == if filterType == "Edge Detection" then 0.0 else 1.0
    ensures filterType != "Blur" ==> SelectKernel(filterType, kernelSize) == SelectKernel(filterType, otherSize)
  {
    if filterType == "Blur" {
      BoxKernelSumsToOne(kernelSize);
    }
  }
}
