# Average Images node — Dafny model

This project models the "Average Images" node (`AverageImagesInvocation.invoke`).
The node takes a non-empty collection of RGB images of one size and returns one image.
Each channel of each output pixel is the sum of that channel over all inputs, divided by
the number of images and truncated to an 8-bit value.

- `Raster`: decoded RGB images as `height x width x 3` arrays (`Image`, `Valid`, `Uniform`).
- `Accumulator`: the integer accumulator (`Zeros`, `Add`), the reference per-channel `Sum`,
  and its lemmas (one step of the fold, bounds, order independence).
- `AverageImages`: the division and 8-bit conversion (`Quantize`, `Normalize`), the reference
  mean (`Mean`), the loop that mirrors `invoke` (`Invoke`), and the properties of the mean.
- `Results`: the `Result`/`Option` wrappers and the single error, `NoInputImages`.

The float division `arr / len(images)` followed by `astype(np.uint8)` is modelled as integer
floor division. The sum and the count are non-negative, so truncating the quotient is the
same as flooring it. The model assumes that the float quotient is exact enough for realistic
image counts that truncation lands on the same integer. `Quantize` proves the quotient is at
most 255, so the 8-bit conversion never wraps.

The node takes a plain arithmetic mean, with no gamma parameter. The only error it raises is
for an empty collection. Every image must have the first image's width and height.

## Model

| member | source | states |
|---|---|---|
| Accumulator.Zeros | average_images.py:33-35 | the accumulator created for the first image is shaped (height, width, 3) and holds the sum of no images |
| Accumulator.Add | average_images.py:37-38 | adding an image keeps the accumulator's shape (no broadcasting), and each channel grows by exactly that image's channel |
| Accumulator.AccumulateStep | average_images.py:30-38 | an accumulator holding the sums of the first k images, plus image k, holds the sums of the first k+1 images |
| Accumulator.SumBetween | average_images.py:35-38 | if every image's channel at a position lies in [lo, hi], the accumulated sum lies in [lo·N, hi·N]; with 0..255 the sum is at most 255·N, far below the uint64 limit |
| Accumulator.SumPermutation | average_images.py:30-38 | two collections with the same images in any order have the same accumulated sum at every position |
| AverageImages.Quantize | average_images.py:40-41 | the output channel is the floor of sum / N, and it is at most 255 whenever the sum is at most 255·N, so the uint8 cast does not wrap |
| AverageImages.Normalize | average_images.py:40-41 | dividing the accumulator keeps its shape, and each channel is the floor mean of the accumulated value |
| AverageImages.MeanGrid | average_images.py:37-41 | the mean raster has the requested shape, and each channel is the floor mean of the sum over all images |
| AverageImages.Mean | average_images.py:25-41 | for images of one size, an empty collection gives the NoInputImages error and nothing else does; otherwise the output has the first image's width and height, with 3 channels, and each output channel q satisfies q·N <= Σ < (q+1)·N, where Σ is that channel's sum over the N images |
| AverageImages.NormalizeAccumulator | average_images.py:40-41 | normalizing an accumulator that holds the sums over all images yields exactly the mean raster |
| AverageImages.MeanBetween | average_images.py:37-41 | every output channel lies between any bounds that all inputs respect at that position, hence between the minimum and the maximum input value there |
| AverageImages.MeanIsRgb | average_images.py:37-41 | averaging valid RGB images gives a valid RGB image, with every channel in 0..255 |
| AverageImages.MeanOfSolid | average_images.py:37-41 | if every input is the solid colour v, the output is solid v; all-black gives black, and all-white gives white |
| AverageImages.MeanOfCopies | average_images.py:30-41 | averaging n >= 1 copies of one image returns that image unchanged |
| AverageImages.MeanOfOne | average_images.py:30-41 | averaging a single image returns it unchanged |
| AverageImages.MeanPermutation | average_images.py:30-40 | a reordering of a collection of one size is again of one size, and reordering does not change the result |
| AverageImages.Invoke | average_images.py:24-41 | rejects exactly the empty collection with NoInputImages; otherwise it returns a valid RGB image of the first image's size equal to Mean; its loop keeps the accumulator equal to the sum over the processed prefix |

## Left out

- Image loading through the image service and the `convert("RGB")` call (average_images.py:31-32) are foreign I/O. Inputs are already-decoded `Image` values, and `Valid` states what the conversion guarantees: shape (height, width, 3) and channels in 0..255.
- `Image.fromarray`, persisting the result and building the `ImageOutput` (average_images.py:42-59) are host-service plumbing. The model returns the output raster itself.
- The node registration decorator and the field declarations (average_images.py:18-22) are framework wiring.
- AverageImages.Invoke: requires all images to have the first image's width and height (`Uniform`). The code performs no check; numpy raises a broadcast error or silently broadcasts some shapes, and neither is modelled.
- AverageImages.Mean: requires `Uniform` for the same reason; mismatched sizes (numpy's broadcast error or broadcasting) are outside the model.
- AverageImages.MeanBetween: requires `Uniform`, because it is stated about `Mean`.
- AverageImages.MeanIsRgb: requires `Uniform`, because it is stated about `Mean`.
- AverageImages.Invoke: the uint64 accumulator is an unbounded `nat`. `Accumulator.SumBetween` bounds every sum by 255·N, so wrap-around would need more than 7·10^16 images.
- AverageImages.Quantize: float division followed by truncation is modelled as exact integer floor division. Rounding of the float quotient for enormous image counts is not modelled.
- Errors propagated from the image service (a missing image, a decode failure) are not modelled, because they come from code outside this file.
