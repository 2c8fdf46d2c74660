# Minerva / owl execution engine in Dafny

This project models the graph-execution engine of the owl Python front end of
Minerva (`owl/owl/net.py`), the shape logic and parameter records of
`owl/owl/conv.py`, and the edge bookkeeping of `minerva/dag/dag_node.cpp`.

The network (`class Net`) is an append-only arena of units:
- A unit's id is its insertion index.
- Each unit has a forward adjacency list and a mirrored reverse adjacency list.
- A name index maps each name to the ids of the units with that name.

Phase exclusion (`_is_excluded`) decides which units take part in a pass. The
forward and reverse traversals (`_toporder`, `_reverse_toporder`) are Kahn's
algorithm over a FIFO queue. Both are modelled by one method, `KahnOrder`; the
reverse traversal is the same algorithm with the two adjacency lists swapped.
`forward` merges the predecessors' output maps with `dict.update`. `backward`
sums the gradient maps of all successors per port.

Per-unit behaviour is modelled on abstract tensors:
- **Shapes** are `seq<nat>`.
- **Slicing and concatenation:** a tensor that is sliced or concatenated along
  one axis is its shape plus the sequence of its slabs along that axis
  (`Slabs.Slabbed`).
- **Arithmetic:** elementwise arithmetic works on sequences of reals.

Native kernels (convolution, pooling, softmax, the matrix product) are function
parameters, and so is the random dropout mask. Python exceptions and the
failing glog `CHECK_EQ` become `Err` values of `Wrappers.Result`, in the order
Python evaluation would raise them.

Modules:
- **Schedule:** Kahn's algorithm and the scheduling predicates.
- **NetGraph:** class `Net`.
- **Dataflow:** the forward merge and the backward accumulation.
- **Dot:** the Graphviz text.
- **Unit modules:** WeightedUnits, ConcatUnits, FcUnits, ConvUnits, SoftmaxUnits,
  DropoutUnits and SimpleUnits each model one unit class.
- **Conv:** `conv.py`.
- **DagNodes:** `dag_node.cpp`.
- **Shared helpers:** Wrappers, Caffe, Counting, Elementwise and Slabs.

Behaviours of the code a reader may not expect:
- **Cycles:** a cycle among the live units is not reported. The traversal
  simply ends without the cycle's units (`Schedule.CycleIsOmitted`), and no
  cyclic-graph error is raised.
- **Duplicate ports:** when two predecessors supply the same port, the later
  one silently wins (`Dataflow.MergeLastWins`). It is not a configuration
  error.
- **Stochastic pooling:** a pooling layer of the stochastic kind fails with an
  unbound local variable (`Conv.PoolingUnitPooler`). It is not a configuration
  error.

## Model

| member | source | states |
|---|---|---|
| NetGraph.IsExcluded | owl/owl/net.py:443-445 | no unit is excluded without a phase or without include rules; otherwise a unit is excluded iff its first include rule names another phase |
| NetGraph.ExclusionMask | owl/owl/net.py:443-445 | one exclusion flag per unit id, each equal to IsExcluded of that unit |
| NetGraph.MirroredGrows | owl/owl/net.py:410-411 | appending an empty successor list and an empty predecessor list keeps the two lists mirrored with multiplicity |
| NetGraph.MirroredConnect | owl/owl/net.py:439-441 | appending v to u's successors and u to v's predecessors keeps the lists mirrored with multiplicity |
| NetGraph.IndexGrows | owl/owl/net.py:412-414 | appending the new id under the unit's name, creating the entry if absent, keeps every name's id list increasing, non-empty and exact |
| NetGraph.Net.constructor | owl/owl/net.py:396-405 | an empty arena, empty adjacency lists and name index, zero hyper-parameters; the container invariant holds |
| NetGraph.Net.AddUnit | owl/owl/net.py:407-415 | the id is the previous unit count; one empty list is appended to each adjacency list; the id is appended under the unit's name and other names are unchanged; the invariant is kept |
| NetGraph.Net.Connect | owl/owl/net.py:439-441 | v is appended to adjacent[u] and u to reverse_adjacent[v]; an out-of-range u changes nothing and fails, and an out-of-range v fails after the first append; success keeps the lists mirrored |
| Schedule.MirroredSwap | owl/owl/net.py:471-493 | mirroring is symmetric, so the reverse traversal may run the same algorithm on the swapped lists |
| Schedule.InDegrees | owl/owl/net.py:448-454 | the initial count of each unit, minus one per edge leaving an excluded unit, is the number of edges it receives from live units |
| Schedule.Discount | owl/owl/net.py:453-454 | each listed successor's count drops by the number of times it is listed |
| Schedule.StartUnits | owl/owl/net.py:456-459 | the initial queue holds exactly the units with count 0, in increasing id order |
| Schedule.Release | owl/owl/net.py:466-469 | each successor's count drops once per occurrence; a unit is queued or already dequeued iff its count is 0; queued units stay distinct and in FIFO order |
| Schedule.KahnOrder | owl/owl/net.py:447-469 | the yielded order holds only live units, each at most once, each after all its live predecessors; on an acyclic live graph it holds every live unit |
| Schedule.DrainedWhenAcyclic | owl/owl/net.py:461-469 | when the queue runs dry on an acyclic live graph, no live unit is left unscheduled |
| Schedule.YieldKeepsSchedule | owl/owl/net.py:462-465 | yielding a live unit none of whose live predecessors is still waiting keeps the order a valid schedule |
| Schedule.RankedIsAcyclic | owl/owl/net.py:456-469 | a ranking in which every live edge climbs establishes the acyclicity hypothesis of the traversal |
| Schedule.CycleIsOmitted | owl/owl/net.py:456-469 | no unit of a cycle of live units ever occurs in a valid schedule, so the traversal ends without them and raises nothing |
| NetGraph.Net.TopOrder | owl/owl/net.py:447-469 | _toporder: a valid schedule over the forward edges of the units the phase does not exclude, holding all of them when that graph is acyclic |
| NetGraph.Net.ReverseTopOrder | owl/owl/net.py:471-493 | _reverse_toporder: the same over the reverse edges, so every live successor runs first |
| Dataflow.MergeInputs | owl/owl/net.py:498-500 | the inner forward loop computes the left-to-right dict.update merge of the predecessors' output maps |
| Dataflow.MergeKeys | owl/owl/net.py:498-500 | a port is in the merged input map iff some predecessor supplies it |
| Dataflow.MergeLastWins | owl/owl/net.py:498-500 | on a port several predecessors supply, the merged value is that of the last one in reverse_adjacent order |
| Dataflow.AddInto | owl/owl/net.py:508-512 | adding one successor's gradients gives the union of the ports |
| Dataflow.AddPorts | owl/owl/net.py:508-512 | visiting each port of one successor's map: a known port is summed, a new port inserted |
| Dataflow.SumGradients | owl/owl/net.py:506-512 | the backward input map is the accumulation over the successors in adjacent order |
| Dataflow.AccumulateSums | owl/owl/net.py:506-512 | a port is in the backward input iff some successor supplies it, and its value is the sum over every supplying successor, duplicate edges counted |
| Dataflow.FanInOfTwo | owl/owl/net.py:507-512 | two consumers returning g1 and g2 on the same port give g1 + g2 there |
| NetGraph.RunForward | owl/owl/net.py:496-501 | the units run in schedule order until the first failing step, whose failure ends the loop; every unit that completed has as output its step applied to the merge of its predecessors' final outputs; the failing unit's step on that merge is the reported failure; units that did not complete keep an empty map |
| NetGraph.RunBackward | owl/owl/net.py:504-513 | the units run in reverse schedule order until the first failing step; every unit that completed has as gradients its step applied to the accumulated gradients of its successors; the failing unit's step on them is the reported failure; units that did not complete keep an empty map |
| NetGraph.Net.Forward | owl/owl/net.py:495-501 | forward runs the live units in a valid schedule, all of them when acyclic, each on the merge of its predecessors' outputs; a unit that fails aborts the pass with its failure, and it succeeds iff every scheduled unit completed |
| NetGraph.Net.Backward | owl/owl/net.py:503-513 | backward runs the live units in a valid reverse schedule, each on the per-port sum of its successors' gradients; a unit that fails aborts the pass with its failure, and it succeeds iff every scheduled unit completed |
| NetGraph.Net.GetDataUnit | owl/owl/net.py:426-430 | KeyError iff no unit is named "data"; otherwise the lowest-id "data" unit the phase does not exclude, or nothing when all are excluded |
| NetGraph.Net.GetWeightedUnitIds | owl/owl/net.py:432-437 | exactly the ids of the weighted units, in increasing order |
| NetGraph.Net.GetUnitsByName | owl/owl/net.py:417-418 | KeyError iff no unit has the name; otherwise exactly the units of that name, each once, in increasing id order (element i is the unit of IdsNamed's i-th id) |
| NetGraph.IdsNamedExact | owl/owl/net.py:412-418 | the reference list IdsNamed holds every id of a unit of the name, once, strictly increasing, and no other id |
| NetGraph.IndexIsFilter | owl/owl/net.py:412-418 | a strictly increasing id list holding exactly the ids of a name, as add_unit keeps name_to_uid, is that reference list |
| NetGraph.NamedUnitsListed | owl/owl/net.py:417-418 | looking a present name up in the kept index gives that reference list, so the units found are non-empty, all of that name, and include every unit of that name |
| Dot.NatToString | owl/owl/net.py:528 | str of an id is a non-empty string of decimal digits |
| Dot.NatToStringRoundTrip | owl/owl/net.py:528 | the digits read back as the id, with no leading zero |
| Dot.WriteNodeLines | owl/owl/net.py:527-528 | the first loop of __str__ writes one node line per unit, in id order |
| Dot.WriteEdgeLinesOf | owl/owl/net.py:530-531 | the inner loop writes one edge line per entry of a successor list, in list order |
| Dot.WriteEdgeLines | owl/owl/net.py:529-531 | the second loop writes the edge lines of every unit, in id order |
| NetGraph.Net.ToDot | owl/owl/net.py:525-532 | the text is the digraph header, the node lines, the edge lines and the closing brace |
| Dot.NodeLinesCount | owl/owl/net.py:527-528 | the node lines hold exactly one line per unit when names have no newline |
| Dot.EdgeLinesCount | owl/owl/net.py:529-531 | the edge lines hold exactly one line per listed edge, duplicates included |
| Dot.DotTextLines | owl/owl/net.py:525-532 | the whole text has 2 + units + edges lines |
| SimpleUnits.SimpleForward | owl/owl/net.py:28-29 | the first output port gets ff of the first input port, and nothing else is written; KeyError or IndexError exactly when a port name or port is missing |
| SimpleUnits.SimpleBackward | owl/owl/net.py:32-33 | the first input port gets bp of the first output port's gradient; failure exactly when a name or port is missing |
| WeightedUnits.DefaultBlobsLr | owl/owl/net.py:49-52 | no configured learning-rate multipliers give [1, 1]; configured ones are kept |
| WeightedUnits.DefaultWeightDecay | owl/owl/net.py:50-54 | no configured decay multipliers give [1, 0]; configured ones are kept |
| WeightedUnits.WeightedUnit.constructor | owl/owl/net.py:38-54 | weights, deltas and gradients unset; multipliers defaulted |
| WeightedUnits.UpdateRule | owl/owl/net.py:56-70 | a successful blob update sets delta' = momentum*delta - (lr*blobs_lr[k]/batch)*grad - (lr*blobs_lr[k]*wd*weight_decay[k])*param elementwise, with an unset delta read as zeros of the gradient's size, sets param' = param + delta' and clears the gradient |
| WeightedUnits.UpdateConsumesGradient | owl/owl/net.py:63-70 | a second update without a new gradient fails with TypeError and changes nothing |
| WeightedUnits.MomentumExample | owl/owl/net.py:56-70 | weight 1, gradient 0.5, rate 0.1, momentum 0.9: two updates give 0.95 and then 0.855 |
| WeightedUnits.WeightedUnit.WeightUpdate | owl/owl/net.py:56-70 | the weight blob is updated with multipliers index 0, then the bias blob with index 1; a failure on the weight leaves the bias as it was |
| ConcatUnits.ConcatUnit.constructor | owl/owl/net.py:228-231 | the Caffe axis is kept and sliceCount starts empty |
| ConcatUnits.ConcatUnit.Forward | owl/owl/net.py:232-238 | the axis is rank-1-concat_dim of the first input; each input's extent on it is appended to sliceCount, which only grows; the output port gets the concatenation in input order; a missing port is a KeyError and a missing axis an IndexError |
| ConcatUnits.ConcatUnit.Backward | owl/owl/net.py:239-243 | input i gets the slice of the gradient at the offset sliceCount[0] + ... + sliceCount[i-1] of extent sliceCount[i]; AttributeError before any forward |
| Slabs.PiecesContiguous | owl/owl/net.py:240-243 | the slices backward hands out are contiguous and do not overlap |
| Slabs.Concat | owl/owl/net.py:238 | concatenation succeeds iff every part runs along the axis and agrees with the first off it; the result runs along the axis |
| Slabs.Slice | owl/owl/net.py:242 | slicing succeeds iff the slabs run along the axis and the range fits in its extent, else IndexError; the piece runs along the axis with the requested extent and keeps the other extents of the tensor |
| Slabs.SliceOfConcat | owl/owl/net.py:237-242 | slicing a concatenation at part i's offset and extent gives part i back |
| ConcatUnits.SliceBackOfConcat | owl/owl/net.py:232-243 | backward undoes forward: with extents recorded from the inputs, every distinct input name gets back exactly the tensor it supplied |
| ConcatUnits.SliceBackKeys | owl/owl/net.py:239-243 | backward writes only input names |
| FcUnits.Wrap32 | owl/owl/net.py:255 | the int32 product wraps into the signed 32-bit range and agrees with the exact value modulo 2^32 |
| FcUnits.Reshape | owl/owl/net.py:255 | a reshape keeps the element count and takes the target extents; ShapeMismatch otherwise |
| FcUnits.MatMul | owl/owl/net.py:259 | a matrix product exists iff both operands are matrices with matching inner extents, and has the outer extents |
| FcUnits.FlattenKeepsCount | owl/owl/net.py:252-257 | inputs of rank above 2 flatten to a two-axis matrix that keeps the last axis and the element count; with a nonzero last extent this succeeds iff prod(shp[0:-1]) fits in int32 |
| FcUnits.FcRoundTrip | owl/owl/net.py:252-272 | backward after forward reshapes the input gradient to exactly the cached input shape; the weight gradient has the weight's shape |
| FcUnits.FullyConnection.constructor | owl/owl/net.py:248-250 | weight, bias, cache and gradients start unset |
| FcUnits.FullyConnection.Ff | owl/owl/net.py:252-259 | the input is flattened and its shape cached, multiplied by the weight and the bias added; a reshape failure happens before the cache is written; an unset weight, or an unset bias after a successful product, is a TypeError; the sum has the product's shape |
| FcUnits.FullyConnection.Bp | owl/owl/net.py:260-272 | without a cached input it is an AttributeError and no gradient changes; a failing reshape or weight-gradient product leaves both gradients; otherwise the weight gradient and then the bias gradient are recorded, an unset weight then fails with AttributeError, and success (iff weight, cache and FcBackward all succeed) returns FcBackward's input gradient |
| Conv.Ones | owl/owl/conv.py:29 | n ones, none when n is not positive |
| Conv.SoftShape | owl/owl/conv.py:29 | the augmented shape exists iff the shape is non-empty; IndexError otherwise |
| Conv.AugmentedShape | owl/owl/conv.py:28-29 | the augmented shape has rank 4 below rank 4 and is unchanged above; it starts with shape[0:-1], ends with the instance axis, holds only ones in between, and has the same element count |
| Conv.KernelShape | owl/owl/conv.py:25-26 | a 4-D input goes to the kernel unchanged |
| Conv.SoftmaxKeepsShape | owl/owl/conv.py:25-30 | softmax's result has the input's shape; the kernel sees rank 4 for ranks 1 to 4 and the unchanged shape above; an empty shape is an IndexError |
| Conv.Pooler | owl/owl/conv.py:141-160 | every argument is recorded verbatim; pads default to 0 and the kernel to max |
| Conv.Convolver | owl/owl/conv.py:79-92 | pads and strides recorded verbatim |
| Conv.PoolingUnitPooler | owl/owl/net.py:105-113 | a square window with equal strides and pads, MAX or AVE; the stochastic kind fails as UnboundLocal |
| ConvUnits.Pieces | owl/owl/net.py:328-331 | n pieces or an IndexError |
| ConvUnits.PiecesArePieces | owl/owl/net.py:330-331 | piece i is the slice at offset count*i of extent count |
| ConvUnits.PiecesFit | owl/owl/net.py:330-331 | cutting succeeds iff the slabs run along the axis and count*n fits in its extent |
| ConvUnits.ConcatOfPieces | owl/owl/net.py:311 | concatenating consecutive pieces in order gives back the slabs they cover |
| ConvUnits.GroupsReassemble | owl/owl/net.py:303-311 | when the extent divides by group, the group pieces concatenate back to the tensor |
| ConvUnits.Split | owl/owl/net.py:303-308 | one data, filter and bias piece per group, or an IndexError or TypeError |
| ConvUnits.SplitArePieces | owl/owl/net.py:305-308 | data pieces are cut at count*i on axis 2, filter pieces on axis 3 and bias pieces on axis 0 |
| ConvUnits.SplitFits | owl/owl/net.py:305-308 | cutting succeeds iff the three tensors run along their axes, the bias is set and the last group fits in each extent |
| ConvUnits.GroupOrder | owl/owl/net.py:305-311 | results are concatenated in group order: with a pass-through kernel, grouped forward reproduces its input |
| ConvUnits.CutGroups | owl/owl/net.py:305-309 | the forward loop caches exactly the Split pieces and computes one kernel call per group |
| ConvUnits.GroupedGrads | owl/owl/net.py:328-334 | fails with IndexError iff the gradient cannot be cut or forward cached fewer groups; otherwise one weight, bias and input gradient per group |
| ConvUnits.GroupBackward | owl/owl/net.py:330-334 | the backward loop computes GroupedGrads |
| ConvUnits.ConvConnection.constructor | owl/owl/net.py:277-288 | a convolver with equal pads and equal strides; no caches |
| ConvUnits.ConvConnection.Ff | owl/owl/net.py:289-311 | one group: the input is cached and convolved; several: the caches are reset, the Split pieces cached, and each group's result concatenated on the data axis in group order; errors in evaluation order |
| ConvUnits.ConvConnection.Bp | owl/owl/net.py:313-343 | one group: gradients from the cached input; several: per-group gradients concatenated on axes 3, 0 and 2 in group order, and the caches emptied after success |
| ConvUnits.ConvConnection.BpGroups | owl/owl/net.py:318-343 | the grouped branch of bp stores the concatenated gradients and empties the caches |
| ConvUnits.ConvConnection.StoreGrads | owl/owl/net.py:336-343 | the filter gradient is stored, then the bias gradient, then the caches are emptied and the input gradient is returned |
| SoftmaxUnits.LossScale | owl/owl/net.py:158-161 | the scale is the loss weight when exactly one is given, else 1 |
| SoftmaxUnits.SoftmaxGrad | owl/owl/net.py:157-161 | (ffY - y) times the single loss weight, or unscaled otherwise |
| SoftmaxUnits.LossWeightRule | owl/owl/net.py:158-161 | a loss weight of 1 is the same as none, two or more are ignored, and every element is (ffY - y) times LossScale |
| SoftmaxUnits.SoftmaxUnit.constructor | owl/owl/net.py:150-152 | loss weights recorded; nothing cached |
| SoftmaxUnits.SoftmaxUnit.Forward | owl/owl/net.py:153-156 | the output port and the cache get the softmax of the first input, then the labels are cached; errors in evaluation order |
| SoftmaxUnits.SoftmaxUnit.Backward | owl/owl/net.py:157-161 | the first input port gets SoftmaxGrad of the cache; AttributeError before forward |
| DropoutUnits.MaskedAt | owl/owl/net.py:131 | each element is x[i]*mask[i]*scale |
| DropoutUnits.DropoutFf | owl/owl/net.py:128-134 | in TRAIN the masked and rescaled input, otherwise the input unchanged |
| DropoutUnits.DropoutBp | owl/owl/net.py:140-141 | the gradient masked and rescaled, in every phase |
| DropoutUnits.DropoutAdjoint | owl/owl/net.py:128-141 | in TRAIN, backward is the adjoint of forward for the same mask: Dot(ff(x), y) == Dot(x, bp(y)) |
| DropoutUnits.DropoutUnit.constructor | owl/owl/net.py:124-127 | scale 1/(1-ratio) and keep ratio 1-ratio |
| DropoutUnits.DropoutUnit.Ff | owl/owl/net.py:128-134 | the mask is stored on every call, in either phase, and the result is DropoutFf |
| DropoutUnits.DropoutUnit.Bp | owl/owl/net.py:140-141 | the last stored mask is reused; AttributeError before any forward |
| DagNodes.DagNode.constructor | minerva/dag/dag_node.cpp:9-10 | the id as given and both sets empty |
| DagNodes.DagNode.AddParent | minerva/dag/dag_node.cpp:12-18 | this joins p's successors and p joins this node's predecessors; nothing else changes; the result is 1 iff the edge was new and 0 otherwise, and CheckFailed when the two inserts disagree; a mirrored pair stays mirrored and never fails |
| DagNodes.AddParentTwice | minerva/dag/dag_node.cpp:13-17 | a second call with the same parent returns 0; after both calls the child's predecessors are the old ones plus the parent and the parent's successors the old ones plus the child; from a mirrored pair the first call returns 1 iff the edge is new |

## Left out

- Tensor kernels are not modelled. They are native calls (ele.*, owl.zeros, owl.randb, _owl.NArray.*). Convolution, pooling, softmax and the matrix product are function parameters; to model concatenation and slicing, tensors are sequences of slabs.
- Lrner and the ff/bp bodies of Convolver and Pooler are not modelled; they are thin wrappers over the native library.
- SoftmaxUnit.getloss and AccuracyUnit are not modelled: they need floating-point logarithms and native argmax/count_zero.
- The dropout mask is not drawn; owl.randb's randomness is a parameter.
- DropoutUnits.DropoutUnit.constructor: at a dropout ratio of exactly 1 the source divides by zero; the constructor requires a ratio other than 1 instead of modelling that crash.
- DataUnit and minibatch reading (lmdb, protobuf, images, generators) are not modelled: they are I/O. So are the application scripts and the C++ headers of macros and plain structs.
- Net.update and Net.weight_update are not modelled: they call an undefined function and read fields that are never set, so they cannot run.
- wait_for_eval_loss is not modelled: it is device synchronisation.
- get_loss_units and get_accuracy_units are not modelled: nothing in the modelled code fills their id lists.
- Multi-GPU batch splitting is not modelled.
- The generators _toporder and _reverse_toporder return the whole order at once. Forward and backward consume it entirely and do not change the graph in between, so the order is the same.
- Negative Python indices are not modelled, and neither are the native library's handling of a negative axis or a negative group count. Ids and extents are naturals, and a negative concat axis is an IndexError.
- NetGraph.Net.Forward: unit steps are functions of the unit id, the input map and the phase that return an output map or a failure. State a unit keeps between passes is modelled in that unit's own class. The per-unit maps, local to the pass in Python, are returned so that the contract can say what the completed units computed.
- NetGraph.Net.Backward: gradients are one real per port, so the elementwise += on tensors becomes +.
- ConcatUnits.ConcatUnit.Forward: when an input fails part-way through the loop, the contract says only that the error is a KeyError or an IndexError and that sliceCount only grew. It does not say which extents were appended before the failure.
- ConcatUnits.ConcatUnit.Backward: a failure part-way through the loop returns only the error. The gradients Python already wrote for the earlier inputs are not returned.
- ConvUnits.ConvConnection.Ff: when a group's slice fails part-way through the loop, the contract does not state which pieces the caches then hold.
- ConvUnits.Split: a missing bias and the native library's other argument errors are modelled as TypeError.
- Conv.SoftmaxKeepsShape: the native softmax kernel is assumed to return the shape it is given.
- FcUnits.FullyConnection.Ff: the native broadcasting rule of the bias addition is not modelled. A set bias whose shape the library refuses is not reported as a failure; the sum takes the product's shape.
- DagNodes.DagNode.AddParent: a failed CHECK_EQ aborts the process after both inserts. The model returns CheckFailed with both inserts done.
