/** The rigid body: a point mass extended with attitude, angular rates and
    accelerations, mass properties, the state vector handed to the integrator
    and an append-only history of samples. */
module RigidBodies {
  import opened Dcm
  import opened History

  /** The value an attribute has after the constructor's keyword overrides:
      the keyword's value when one was given, the attribute's default otherwise. */
  function Override(kwargs: map<string, real>, name: string, default: real): real
  {
    if name in kwargs then kwargs[name] else default
  }

  class RigidBody {
    // position, velocity and acceleration of the point mass
    var x: real
    var y: real
    var z: real
    var vx: real
    var vy: real
    var vz: real
    var ax: real
    var ay: real
    var az: real

    // Euler angles (3-2-1 sequence)
    var phi: real
    var theta: real
    var psi: real

    // angular rates and angular accelerations
    var p: real
    var q: real
    var r: real
    var p_dot: real
    var q_dot: real
    var r_dot: real

    // initial attitude
    var phi0: real
    var theta0: real
    var psi0: real

    // mass properties
    var m: real
    var ixx: real
    var iyy: real
    var izz: real
    var xcm: real

    /** The recorded history, one row per sample; its columns are laid out by `Didx`. */
    var data: seq<Row>

    /** The state vector for integration. */
    var xs: seq<real>

    /** The samples recorded since construction, in call order. */
    ghost var stored: seq<Row>

    /** The history is the initial all-zero row followed by every recorded
        sample, each one full width. */
    ghost predicate Valid()
      reads this`data, this`stored
    {
      Rectangular(stored) && data == Replay(Initial(), stored)
    }

    /** The shape of a valid history: one row more than samples recorded, row 0
        all zero, every row full width, and row k + 1 is the k-th sample. */
    lemma HistoryLayout()
      requires Valid()
      ensures |data| == |stored| + 1
      ensures data[0] == ZeroRow()
      ensures Rectangular(data)
      ensures forall k | 0 <= k < |stored| :: data[k + 1] == stored[k]
    {
      ReplayFromInitial(stored);
    }

    /** The value recorded in column `name` of a sample taken at time `t`. */
    function Value(name: string, t: real): real
      reads this
      requires name in Didx
    {
      match name
      case "t" => t
      case "x" => x
      case "y" => y
      case "z" => z
      case "vx" => vx
      case "vy" => vy
      case "vz" => vz
      case "ax" => ax
      case "ay" => ay
      case "az" => az
      case "phi" => phi
      case "theta" => theta
      case "psi" => psi
      case "p" => p
      case "q" => q
      case "r" => r
      case "p_dot" => p_dot
      case "q_dot" => q_dot
      case _ => r_dot
    }

    /** The row a sample at time `t` adds to the history: full width, and each
        quantity sits in the column `Didx` assigns to its name. */
    function Snapshot(t: real): (row: Row)
      reads this
      ensures |row| == Width
      ensures forall name | name in Didx :: row[Didx[name]] == Value(name, t)
      ensures forall i | 0 <= i < Width :: row[i] == Value(Order[i], t)
    {
      DidxMatchesOrder();
      [t, x, y, z,
       vx, vy, vz,
       ax, ay, az,
       phi, theta, psi,
       p, q, r,
       p_dot, q_dot, r_dot]
    }

    /** Applies the keyword overrides to the defaults (all zero), snapshots the
        initial attitude and builds the state vector for integration. */
    constructor (kwargs: map<string, real>)
      ensures x == Override(kwargs, "x", 0.0) && y == Override(kwargs, "y", 0.0)
      ensures z == Override(kwargs, "z", 0.0)
      ensures vx == Override(kwargs, "vx", 0.0) && vy == Override(kwargs, "vy", 0.0)
      ensures vz == Override(kwargs, "vz", 0.0)
      ensures ax == Override(kwargs, "ax", 0.0) && ay == Override(kwargs, "ay", 0.0)
      ensures az == Override(kwargs, "az", 0.0)
      ensures phi == Override(kwargs, "phi", 0.0) && theta == Override(kwargs, "theta", 0.0)
      ensures psi == Override(kwargs, "psi", 0.0)
      ensures p == Override(kwargs, "p", 0.0) && q == Override(kwargs, "q", 0.0)
      ensures r == Override(kwargs, "r", 0.0)
      ensures p_dot == Override(kwargs, "p_dot", 0.0) && q_dot == Override(kwargs, "q_dot", 0.0)
      ensures r_dot == Override(kwargs, "r_dot", 0.0)
      ensures m == Override(kwargs, "m", 0.0) && ixx == Override(kwargs, "ixx", 0.0)
      ensures iyy == Override(kwargs, "iyy", 0.0) && izz == Override(kwargs, "izz", 0.0)
      ensures xcm == Override(kwargs, "xcm", 0.0)
      ensures phi0 == phi && theta0 == theta && psi0 == psi
      ensures xs == [x, y, z, vx, vy, vz, phi, theta, psi, p, q, r]
      ensures data == Initial() && stored == []
      ensures Valid()
    {
      var x', y', z' := Override(kwargs, "x", 0.0), Override(kwargs, "y", 0.0), Override(kwargs, "z", 0.0);
      var vx', vy', vz' := Override(kwargs, "vx", 0.0), Override(kwargs, "vy", 0.0), Override(kwargs, "vz", 0.0);
      x, y, z := x', y', z';
      vx, vy, vz := vx', vy', vz';
      ax, ay, az := Override(kwargs, "ax", 0.0), Override(kwargs, "ay", 0.0), Override(kwargs, "az", 0.0);
      var phi', theta', psi' := Override(kwargs, "phi", 0.0), Override(kwargs, "theta", 0.0), Override(kwargs, "psi", 0.0);
      var p', q', r' := Override(kwargs, "p", 0.0), Override(kwargs, "q", 0.0), Override(kwargs, "r", 0.0);
      phi, theta, psi := phi', theta', psi';
      p, q, r := p', q', r';
      p_dot, q_dot, r_dot := Override(kwargs, "p_dot", 0.0), Override(kwargs, "q_dot", 0.0), Override(kwargs, "r_dot", 0.0);
      m, ixx, iyy := Override(kwargs, "m", 0.0), Override(kwargs, "ixx", 0.0), Override(kwargs, "iyy", 0.0);
      izz, xcm := Override(kwargs, "izz", 0.0), Override(kwargs, "xcm", 0.0);
      data := Initial();
      stored := [];
      // the initial attitude is taken after the overrides
      phi0, theta0, psi0 := phi', theta', psi';
      xs := [x', y', z', vx', vy', vz', phi', theta', psi', p', q', r'];
      assert Replay(Initial(), []) == Initial();
    }

    /** Body-from-inertial direction cosine matrix at the current attitude. */
    function BI(dcm321: Dcm321): (m: Matrix3)
      reads this
      ensures m == dcm321(phi, theta, psi)
    {
      dcm321(phi, theta, psi)
    }

    /** Inertial-from-body direction cosine matrix at the current attitude:
        entry (i, j) is entry (j, i) of `BI`. */
    function IB(dcm321: Dcm321): (mt: Matrix3)
      reads this
      ensures forall i, j | 0 <= i < 3 && 0 <= j < 3 :: mt[i][j] == BI(dcm321)[j][i]
    {
      Transpose(dcm321(phi, theta, psi))
    }

    /** `BI` is recovered from `IB` by transposing back. */
    lemma BIIsTransposeOfIB(dcm321: Dcm321)
      ensures BI(dcm321) == Transpose(IB(dcm321))
    {
      TransposeInvolutive(dcm321(phi, theta, psi));
    }

    /** Records a sample at time `t` (-1 when the caller gives none): the
        history gains one row, the earlier rows stay as they were, and nothing
        but the history changes. */
    method Store(t: real := -1.0)
      requires Valid()
      modifies this`data, this`stored
      ensures Valid()
      ensures stored == old(stored) + [Snapshot(t)]
      ensures data == Append(old(data), Snapshot(t))
      ensures |data| == |old(data)| + 1 && data[..|old(data)|] == old(data)
      ensures forall name | name in Didx :: data[|data| - 1][Didx[name]] == Value(name, t)
    {
      ReplaySnoc(Initial(), stored, Snapshot(t));
      data := Append(data, Snapshot(t));
      stored := stored + [Snapshot(t)];
      assert Rectangular(stored) by {
        AppendKeepsRectangular(old(stored), Snapshot(t));
      }
    }
  }

  /** A body records at time 1.0, then at 2.0, then without a time: the
      history gains three rows after the ones it had, in call order, stamped
      1.0, 2.0 and -1. */
  method StoreInCallOrder(b: RigidBody)
    requires b.Valid()
    modifies b`data, b`stored
    ensures b.Valid()
    ensures b.data == old(b.data) + [b.Snapshot(1.0), b.Snapshot(2.0), b.Snapshot(-1.0)]
    ensures b.data[|b.data| - 3][Didx["t"]] == 1.0
    ensures b.data[|b.data| - 2][Didx["t"]] == 2.0
    ensures b.data[|b.data| - 1][Didx["t"]] == -1.0
  {
    b.Store(1.0);
    b.Store(2.0);
    b.Store();
  }
}
