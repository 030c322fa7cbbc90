# MixBlazeNet channel bookkeeping, in Dafny

MixBlazeNet is a small image classifier built from PyTorch layers: a stem
convolution, two `Effi_A` blocks, three `Effi_B` blocks, an average pool and
a linear classifier. Both block kinds start with `MDConv`, a mixed-kernel
depthwise convolution. `MDConv` splits its channels into one group per kernel
size with `_SplitChannels`, convolves each group on its own, and concatenates
the results.

This project models the integer part of that code. It models the channel
split, and it models how the network is wired at the level of channel
counts. A tensor is represented only by its number of channels. Each layer
either maps that count to a new count, or fails with the error PyTorch
raises when the count does not fit the layer.

Modules, one per component of `EffiNet.py`:

- `Results` (results.dfy): `Result` and `Option`, and the errors used: an
  index into an empty list, a channel mismatch, and a concatenation of no
  tensors.
- `Channels` (split_channels.dfy): `_SplitChannels`. `Split` is the closed
  form: entry 0 holds the quotient plus the remainder, and every other entry
  holds the quotient. With fewer than one group the result is `IndexError`.
  The method `SplitChannels` does the source's three steps (build the list
  of quotients, sum it, add the shortfall to entry 0) and is proved equal to
  `Split`. Python's floor division `//` is the same as Dafny's Euclidean `/`
  for a positive divisor, so negative channel counts are covered as well.
- `Layers` (layers.dfy): the arguments of `nn.Conv2d` and the other layers.
  It also gives each layer's effect on the channel count, and defines
  `nn.Sequential` as `ChainOut`.
- `MixedConv` (md_conv.dfy): the class `MDConv`. Its constructor fills the
  list of depthwise convolutions in a loop, as the source does. `Forward`
  follows both paths of `forward`: the single-group bypass, and
  split/convolve/concatenate.
- `Blocks` (blocks.dfy): the classes `EffiA` and `EffiB`. Each holds its
  `use_pool` gate, its main branch, and its shortcut. The shortcut is built
  only when the gate is set, and no accepted stride sets it.
- `Network` (network.dfy): the class `MixBlazeNet` and its forward pass.

The modules are immutable after construction, because nothing in the
source changes them after `__init__`. So their fields are `const`. Each
constructor's arguments are kept as ghost fields, and `Valid()` ties the
built layers to those arguments.

Observation: `Effi_A` puts `BatchNorm2d(mid_channels)` right after
`MDConv(in_channels)`, so the block only runs when `mid_channels` equals
`in_channels` (`Blocks.EffiA.Forward`). The network always uses the default,
so this never goes wrong there.

Behaviour of the code a reader may not expect:
- `_SplitChannels` does not fail when there are more groups than channels.
  It returns zero or negative entries.
- It accepts any channel count.
- Only zero or negative group counts make it raise, by indexing an empty
  list.
- The code does not require the kernel sizes of `MDConv` to be distinct.

## Model

| member | source | states |
|---|---|---|
| `Channels.Split` | EffiNet.py:10-13 | fails with `IndexError` exactly when there are fewer than one group; otherwise returns exactly `num_groups` entries |
| `Channels.SplitChannels` | EffiNet.py:10-13 | building the quotient list, summing it and adding the shortfall to entry 0 in place yields the closed form, error case included |
| `Channels.SplitSum` | EffiNet.py:12 | the entries add up to exactly `channels` |
| `Channels.SplitShape` | EffiNet.py:11-12 | entry 0 is quotient plus remainder, every later entry is the quotient, entry 0 is the largest and exceeds each other by less than `num_groups` |
| `Channels.SplitPositive` | EffiNet.py:10-12 | every entry is positive if and only if `num_groups <= channels` |
| `Channels.SplitUnique` | EffiNet.py:11-12 | the split is the only list of `num_groups` entries that sums to `channels` and holds the quotient after entry 0 |
| `Channels.SplitOne` | EffiNet.py:11-12 | one group is the whole count, `[channels]` |
| `Channels.SplitExamples` | EffiNet.py:15-19 | the five worked examples: (16,1), (24,1), (24,3), (40,2), (40,3) |
| `Layers.ChainOut` | EffiNet.py:66-71 | `nn.Sequential`: an empty list passes the input through unchanged, and every failure of a layer list is a channel mismatch |
| `Layers.ChainOne` | EffiNet.py:66-71 | a list of one layer does what that layer does; with `ChainAppend` this fixes the result on every list, each layer getting the previous one's output |
| `Layers.ChainAppend` | EffiNet.py:66-71 | running two layer sequences one after the other equals running their concatenation, errors included |
| `MixedConv.SplitTensor` | EffiNet.py:45 | `torch.split` succeeds if and only if the sizes add up to the channel count, and the pieces then have exactly those sizes |
| `MixedConv.ApplyEach` | EffiNet.py:46 | the zip of convolutions and pieces succeeds if and only if every paired piece has its convolution's input count; it yields one output per pair, the i-th with the i-th convolution's output count |
| `MixedConv.Cat` | EffiNet.py:47 | `torch.cat` fails with `EmptyConcat` if and only if the list of pieces is empty; otherwise the channel counts add up |
| `MixedConv.CatConcat` | EffiNet.py:47 | concatenating two non-empty lists in one call gives as many channels as concatenating each and then the two results |
| `MixedConv.MDConv.constructor` | EffiNet.py:23-39 | one depthwise convolution per kernel size; the i-th maps `split[i]` to `split[i]` channels with `split[i]` groups, kernel `k[i]`, padding `k[i] // 2`, the given stride and no bias |
| `MixedConv.ApplyEachDepthwise` | EffiNet.py:46 | each depthwise convolution returns a piece of exactly the size it was given |
| `MixedConv.SplitConvCatPreserves` | EffiNet.py:45-49 | split, convolve and concatenate returns `channels` for an input of `channels` and refuses every other count |
| `MixedConv.MDConv.Forward` | EffiNet.py:41-49 | the output has as many channels as the input, on both paths; only the constructor's channel count is accepted |
| `MixedConv.BypassAgrees` | EffiNet.py:42-47 | with one kernel size the direct call agrees with the split/concatenate path for every input |
| `MixedConv.GroupsNonEmpty` | EffiNet.py:26-39 | every convolution gets a positive channel and group count if and only if there are no more kernel sizes than channels |
| `Blocks.MidOr` | EffiNet.py:58 | `mid_channels or in_channels`: `None` and `0` fall back to `in_channels`, any other value is kept |
| `Blocks.UsePoolA` | EffiNet.py:59-64 | the `Effi_A` gate is false for both strides the assertion admits |
| `Blocks.UsePoolB` | EffiNet.py:94-98 | the `Effi_B` gate is false for both strides the assertion admits |
| `Blocks.EffiA.constructor` | EffiNet.py:56-81 | stride 1 or 2 is required; `use_pool` is false and no shortcut is built; the branch is the mixed convolution, `BatchNorm2d(mid)`, a 1x1 convolution to `out`, `BatchNorm2d(out)` |
| `Blocks.EffiB.constructor` | EffiNet.py:91-119 | stride 1 or 2 is required; `use_pool` is false and no shortcut is built; the mixed convolution uses kernels 3 and 5 |
| `Blocks.TailAOut` | EffiNet.py:68-70 | the layers after the mixed convolution accept `mid_channels` and yield `out_channels` |
| `Blocks.TailBOut` | EffiNet.py:102-109 | the layers after the mixed convolution accept `in_channels` and yield `out_channels`, whatever `mid_channels` is |
| `Blocks.ShortcutOut` | EffiNet.py:75-79 | the shortcut, if it were built, would take `in_channels` to `out_channels` like the main branch |
| `Blocks.EffiA.Forward` | EffiNet.py:83-86 | an `Effi_A` block yields `out_channels` if and only if the input has `in_channels` and `mid_channels == in_channels`; otherwise it fails |
| `Blocks.EffiB.Forward` | EffiNet.py:121-124 | an `Effi_B` block yields `out_channels` if and only if the input has `in_channels` |
| `Network.MixBlazeNet.constructor` | EffiNet.py:128-148 | the stem 3 to 24; `Effi_A` 24 to 24 and 24 to 48; `Effi_B` 48 to 96, 96 to 96 and 96 to 96 with `mid_channels` 24; `AvgPool2d(14)`; `Linear(96, num_classes)` |
| `Network.MixBlazeNet.NoShortcut` | EffiNet.py:137-145 | none of the five blocks sets `use_pool` or builds a shortcut |
| `Network.StemOut` | EffiNet.py:131-135 | the stem accepts 3 channels and yields 24 |
| `Network.RunALinedUp` | EffiNet.py:137-140 | a sequence of `Effi_A` blocks runs if and only if each block gets the count it was built for, and then yields the last block's `out_channels` |
| `Network.RunBLinedUp` | EffiNet.py:142-145 | the same for a sequence of `Effi_B` blocks |
| `Network.RunAOut` | EffiNet.py:137-140 | the two `Effi_A` blocks take the stem's 24 channels to 48 |
| `Network.RunBOut` | EffiNet.py:142-145 | the three `Effi_B` blocks take 48 channels to 96 |
| `Network.MixBlazeNet.Forward` | EffiNet.py:152-158 | the forward pass yields `num_classes` if and only if the input has 3 channels; each stage gets the count the previous one produced (3, 24, 24, 48, 96, 96, 96), and 96 reaches `Linear(96, num_classes)` |

## Left out

- Tensor values are not modelled: convolution arithmetic, batch norm, ReLU, ReLU6, `hswish` (EffiNet.py:5-8) and pooling. These are floating-point computations done inside PyTorch. Activations and pooling keep the channel count in this model.
- Spatial size is not modelled. That covers whether `AvgPool2d(14)` fits a 224x224 input and the batch dimension. `x.view(-1, 96)` is modelled as accepting only 96 channels. PyTorch accepts any count whose product with the batch size (and the spatial size) is a multiple of 96, and then changes the batch dimension; the network always feeds it 96 channels on a 1x1 map.
- PyTorch's own argument checks are not modelled. `nn.Conv2d` rejects zero groups and channel counts not divisible by the groups, and `torch.split` rejects negative sizes. `MixedConv.GroupsNonEmpty` states when the group counts are positive.
- Blocks.EffiA.constructor: broadcasting a one-channel tensor in the shortcut sum is not modelled. The sum requires equal channel counts, and the branch is never built.
- Blocks.EffiB.constructor: same as for `Effi_A`.
- MixedConv.MDConv.constructor: requires at least one kernel size. A Dafny constructor cannot fail, and with an empty list the source raises `IndexError` inside `_SplitChannels`. That error is modelled by `Channels.Split` returning `Err(IndexError)`.
- Blocks.EffiA.constructor: `assert stride in [1, 2]` is a precondition. Running Python with assertions disabled, where any stride is accepted, is not modelled.
- Blocks.EffiB.constructor: the same `assert stride in [1, 2]` is a precondition, for the same reason.
- Module registration, parameters, autograd and `nn.ModuleList` bookkeeping are not modelled. The model keeps only the layers' arguments.
- `cal_model`, `torchstat` and the `__main__` entry point (EffiNet.py:161-178) are not modelled. They are diagnostic I/O and a foreign call.
