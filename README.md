# Rigid body state and history recorder

A model of the live part of the `rigidbody` class of C4dynamics
(`body/rigidbody.py`). A rigid body is a point mass (position, velocity,
acceleration) extended with Euler angles (3-2-1 sequence), angular rates,
angular accelerations, the initial attitude and mass properties. Its live
operations are:

- construction: keyword overrides are applied to the attribute defaults, the
  initial attitude `phi0, theta0, psi0` is copied from the overridden angles,
  and the 12-element integration state `xs = [x, y, z, vx, vy, vz, phi, theta,
  psi, p, q, r]` is built;
- `BI` / `IB`: the body-from-inertial direction cosine matrix at the current
  attitude and its transpose, the inertial-from-body matrix;
- `Store(t)`: appends one 19-column row `[t, x, y, z, vx, vy, vz, ax, ay, az,
  phi, theta, psi, p, q, r, p_dot, q_dot, r_dot]` to the history `data`. When
  no time is given it records -1. The history starts as a single all-zero row,
  and its column layout is the name-to-index table `Didx`.

Files:

- `dcm.dfy` (module `Dcm`): 3x3 matrices, the `Dcm321` function type standing
  for the library's 3-2-1 direction cosine matrix, and `Transpose`.
- `history.dfy` (module `History`): the row width, the `Didx` table, the order
  in which a row lists the quantities, the all-zero initial row, `Append`
  (one stored row), and `Replay` (the history after a sequence of stores).
- `rigidbody.dfy` (module `RigidBodies`): the class `RigidBody` with one field
  per attribute, the constructor, `BI`, `IB`, `Snapshot` (the row a store
  adds) and the method `Store`. A ghost field `stored` keeps the samples
  recorded since construction. `Valid()` ties `data` to `Replay(Initial(),
  stored)`.

The frame of `Store`, `modifies this`data, this`stored`, guarantees that every
other field keeps its value across a store: the kinematic fields,
`phi0/theta0/psi0`, the mass properties and `xs`.

Two further points about the code:

- `xs` is built from the velocity fields `vx, vy, vz` as the code stores them.
- The constructor accepts any mass and inertia, including zero and negative
  values.

## Model

| member | source | states |
|---|---|---|
| Dcm.Transpose | body/rigidbody.py:87-91 | entry (i, j) of the transposed matrix is entry (j, i) of the argument, for every i, j in 0..2 |
| Dcm.TransposeInvolutive | body/rigidbody.py:87-97 | transposing twice gives back the same matrix, so the inertial-from-body matrix converts back to the body-from-inertial one |
| RigidBodies.RigidBody.BI | body/rigidbody.py:93-97 | the body-from-inertial matrix is `dcm321` applied to the current `phi, theta, psi` |
| RigidBodies.RigidBody.IB | body/rigidbody.py:87-91 | `IB()[i][j] == BI()[j][i]` for all i, j in 0..2, at the same angles `phi, theta, psi` |
| RigidBodies.RigidBody.BIIsTransposeOfIB | body/rigidbody.py:93-97 | `BI()` is the transpose of `IB()` at the same angles, the converse direction of the relation |
| History.DidxMatchesOrder | body/rigidbody.py:61-62 | the 19 positions of a stored row and the `Didx` table agree both ways: position i holds the name whose index is i, and every name in `Didx` indexes a position below 19 that holds that name |
| History.ZeroRow | body/rigidbody.py:60 | the initial row has 19 columns, all zero |
| History.Initial | body/rigidbody.py:60 | a new history is exactly one row, the all-zero row, and every row is 19 wide |
| History.Append | body/rigidbody.py:101-108 | a store grows the history by exactly one row, keeps every earlier row unchanged, and puts the new row last |
| History.AppendKeepsRectangular | body/rigidbody.py:101-108 | appending a 19-column row to a history whose rows are all 19 wide keeps every row 19 wide |
| History.ReplayAppendsInOrder | body/rigidbody.py:100-108 | recording a list of rows one store at a time leaves the earlier rows intact and puts the k-th stored row at position length + k, so the row order is the call order |
| History.ReplaySnoc | body/rigidbody.py:100-108 | recording a list of rows and then one more row gives the same history as one more store after the list |
| History.ReplayFromInitial | body/rigidbody.py:60-62 | after n 19-column rows are stored into a new history there are n + 1 rows, all 19 wide, row 0 is still all zero and row k + 1 is the k-th stored row |
| RigidBodies.RigidBody.Snapshot | body/rigidbody.py:102-107 | the row a store adds has 19 columns; each quantity (`t`, `x` … `r_dot`) sits at the column `Didx` assigns to its name, and column i holds the i-th quantity of the row order `Order` |
| RigidBodies.RigidBody.HistoryLayout | body/rigidbody.py:60-62 | a body's history has one row more than the number of stores, row 0 is all zero, every row is 19 wide and row k + 1 is the k-th recorded sample |
| RigidBodies.RigidBody.constructor | body/rigidbody.py:77-84 | each attribute takes its keyword value when one is given and its default otherwise; `phi0, theta0, psi0` equal the overridden `phi, theta, psi`; `xs` is exactly `[x, y, z, vx, vy, vz, phi, theta, psi, p, q, r]`; the history is the single zero row |
| RigidBodies.RigidBody.Store | body/rigidbody.py:100-108 | the history becomes the old rows plus the current snapshot. Its length grows by exactly one, the old rows are unchanged, and the new row holds each quantity at its `Didx` column. The time column is `t`, or -1 when no time is given. Only the history changes, and the history invariant is kept |
| RigidBodies.StoreInCallOrder | body/rigidbody.py:100-108 | storing at 1.0, then at 2.0, then with no time appends three rows in call order, with time columns 1.0, 2.0 and -1 |

## Left out

- The commented-out `update`, `run` and `eqm` (body/rigidbody.py:113-312) are not modelled. They are dead code built on floating-point trigonometry and on an external ODE solver.
- The trigonometric body of the library's `dcm321` is not part of this model. `BI` and `IB` take it as a parameter of type `Dcm321`. The transpose relation is proved for every such function.
- The point-mass base class is not part of this model. Its attributes `x, y, z, vx, vy, vz, ax, ay, az` are plain fields, assumed to default to zero like the rigid body's own attributes.
- RigidBodies.RigidBody.constructor: keyword overrides are modelled only for the real-valued attributes `x` … `r_dot`, `m`, `ixx`, `iyy`, `izz` and `xcm`. Keywords naming other attributes (`_data`, `_didx`, `dcm`, `_dt`) or unknown names are ignored. Keywords `phi0`, `theta0` and `psi0` are overwritten by the attitude snapshot, as in the code.
- RigidBodies.RigidBody.Store: requires the history invariant. The code itself would fail in `vstack` if `_data` were not 19 columns wide, and only an assignment to `_data` outside `store`, such as a keyword override, could make it so.
- numpy's `vstack` and `.copy()` are modelled as sequence concatenation. Values are copied and never computed on, so they are `real`, with no floating-point rounding. Python's integer default `-1` is recorded as the real -1.
- The unused `_dt` attribute (line 68), the unused class attribute `dcm` (line 54) and the scipy import are not modelled.
- Python's class-level attribute defaults are not modelled as shared state (lines 15-62). `store` assigns the history on the instance, so every body's history is a field of its own.
