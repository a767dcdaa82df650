/**
 * inc/explicit_complementary_filter.h: the explicit complementary filter
 * ECF<T, N>. It keeps an attitude estimate q, a gyro bias estimate b, N
 * reference directions V (known in the inertial frame), N observations U of
 * them (measured in the body frame), N weights K, the gains kp and ki, and a
 * write cursor i shared by the setters. Each update weighs the disagreement
 * between every observation and the direction the estimate predicts for it,
 * feeds it back into the angular rate and integrates the bias.
 *
 * The three std::vector members never change length, so they are arrays of
 * length N; the template parameter packs of the setters are sequences
 * written in order. Every public member leaves the cursor at 0, which is
 * part of the class invariant.
 */
module ComplementaryFilter {
  import opened Reals
  import opened Vectors
  import opened Quaternions
  import opened Attitude

  /** The direction v of the inertial frame as the estimate q expects to see
      it in the body frame: rotate_vec(conjugate(q), v). */
  function Prediction(q: UnitQuaternion, v: Vec3): Vec3
  {
    RotateVec(UnitConjugate(q), v)
  }

  /** One term of the innovation sum: K[n] * cross(U[n], prediction of V[n]). */
  function Term(k: real, u: Vec3, v: Vec3, q: UnitQuaternion): Vec3
  {
    Cross(u, Prediction(q, v)).MulAssign(k)
  }

  /** mes after the first n passes of the loop of update_filter. It is zero
      when each of those observations equals its prediction, and when each
      of those weights is zero. */
  function Innovation(K: seq<real>, U: seq<Vec3>, V: seq<Vec3>, q: UnitQuaternion, n: nat): (r: Vec3)
    requires n <= |K| && n <= |U| && n <= |V|
    ensures (forall j :: 0 <= j < n ==> U[j] == Prediction(q, V[j])) ==> r == Zero
    ensures (forall j :: 0 <= j < n ==> K[j] == 0.0) ==> r == Zero
    decreases n
  {
    if n == 0 then Zero
    else
      CrossSelfZero(U[n - 1]);
      Innovation(K, U, V, q, n - 1).AddAssign(Term(K[n - 1], U[n - 1], V[n - 1], q))
  }

  /** Only the first n entries of the three sequences matter. */
  lemma {:induction false} InnovationPrefix(K: seq<real>, U: seq<Vec3>, V: seq<Vec3>,
                                            K': seq<real>, U': seq<Vec3>, V': seq<Vec3>,
                                            q: UnitQuaternion, n: nat)
    requires n <= |K| && n <= |U| && n <= |V| && n <= |K'| && n <= |U'| && n <= |V'|
    requires K[..n] == K'[..n] && U[..n] == U'[..n] && V[..n] == V'[..n]
    ensures Innovation(K, U, V, q, n) == Innovation(K', U', V', q, n)
    decreases n
  {
    if n > 0 {
      assert K[..n - 1] == K'[..n - 1] && U[..n - 1] == U'[..n - 1] && V[..n - 1] == V'[..n - 1] by {
        assert K[..n - 1] == K[..n][..n - 1] && K'[..n - 1] == K'[..n][..n - 1];
        assert U[..n - 1] == U[..n][..n - 1] && U'[..n - 1] == U'[..n][..n - 1];
        assert V[..n - 1] == V[..n][..n - 1] && V'[..n - 1] == V'[..n][..n - 1];
      }
      assert K[n - 1] == K[..n][n - 1] && K'[n - 1] == K'[..n][n - 1];
      assert U[n - 1] == U[..n][n - 1] && U'[n - 1] == U'[..n][n - 1];
      assert V[n - 1] == V[..n][n - 1] && V'[n - 1] == V'[..n][n - 1];
      InnovationPrefix(K, U, V, K', U', V', q, n - 1);
    }
  }

  /** The rate handed to update_attitude: w - b + kp * mes. Without an
      innovation it is the bias-corrected rate, and it is zero when the gyro
      reads exactly the bias. */
  function Correction(w: Vec3, b: Vec3, kp: real, mes: Vec3): (r: Vec3)
    ensures mes == Zero ==> r.AddAssign(b) == w
    ensures mes == Zero && w == b ==> r == Zero
  {
    Vectors.Add(Vectors.Sub(w, b), Vectors.ScaleLeft(kp, mes))
  }

  /** dot_b = -ki * mes; b += dt * dot_b: the bias moves by dt * ki * mes
      against the innovation, and stays put without one. */
  function BiasStep(b: Vec3, ki: real, mes: Vec3, dt: real): (r: Vec3)
    ensures r == Vectors.Sub(b, mes.MulAssign(dt * ki))
    ensures mes == Zero ==> r == b
  {
    var dotB := Vectors.ScaleLeft(-ki, mes);
    b.AddAssign(Vectors.ScaleLeft(dt, dotB))
  }

  /** If every observation equals its prediction and the gyro reads exactly
      the bias, one update leaves the attitude and the bias where they are. */
  lemma SteadyState(sqrt: real -> real, K: seq<real>, U: seq<Vec3>, V: seq<Vec3>,
                    q: UnitQuaternion, b: Vec3, kp: real, ki: real, dt: real, n: nat)
    requires IsSqrt(sqrt) && n <= |K| && n <= |U| && n <= |V|
    requires forall j :: 0 <= j < n ==> U[j] == Prediction(q, V[j])
    ensures IntegrateEuler(sqrt, q, Correction(b, b, kp, Innovation(K, U, V, q, n)), dt) == q
    ensures BiasStep(b, ki, Innovation(K, U, V, q, n), dt) == b
  {
    assert Innovation(K, U, V, q, n) == Zero;
    EulerAtRest(sqrt, q, dt);
  }

  /** K{N, 0} as written: a brace list, which gives the two elements N and
      0 rather than N zeros. */
  function WeightsAsWritten(N: nat): seq<real>
  {
    [N as real, 0.0]
  }

  /** The weights as written have length N only for N == 2, and for N == 1
      the single weight the update reads is 1, not 0. */
  lemma WeightsAsWrittenMismatch(N: nat)
    ensures |WeightsAsWritten(N)| == N <==> N == 2
    ensures N == 1 ==> WeightsAsWritten(N)[0] == 1.0
  {
  }

  /** The filter object. */
  class ECF {
    const N: nat
    var q: UnitQuaternion
    var b: Vec3
    const V: array<Vec3>
    const U: array<Vec3>
    const K: array<real>
    var ki: real
    var kp: real
    var i: nat

    /** The arrays have length N, V and U are distinct, and the cursor is 0
        between calls. */
    ghost predicate Valid()
      reads this
    {
      V.Length == N && U.Length == N && K.Length == N && V != U && i == 0
    }

    /** ECF(): identity attitude, zero bias, zero vectors, zero gains and
        cursor 0; the weights are N zeros (see WeightsAsWritten for the
        initialiser as written). */
    constructor (N: nat)
      ensures Valid() && this.N == N
      ensures q == Identity && b == Zero && kp == 0.0 && ki == 0.0
      ensures V[..] == seq(N, _ => Zero) && U[..] == seq(N, _ => Zero)
      ensures K[..] == seq(N, _ => 0.0)
      ensures fresh(V) && fresh(U) && fresh(K)
    {
      this.N := N;
      q := Identity;
      b := Zero;
      V := new Vec3[N](_ => Zero);
      U := new Vec3[N](_ => Zero);
      K := new real[N](_ => 0.0);
      ki := 0.0;
      kp := 0.0;
      i := 0;
    }

    /** get_attitude() */
    function GetAttitude(): (r: UnitQuaternion)
      reads this
      ensures r == q
    {
      q
    }

    /** get_bias() */
    function GetBias(): (r: Vec3)
      reads this
      ensures r == b
    {
      b
    }

    /** reset_filter(): identity attitude and zero bias; gains, weights and
        vectors are kept. */
    method Reset()
      requires Valid()
      modifies this
      ensures Valid()
      ensures q == Identity && b == Zero
      ensures kp == old(kp) && ki == old(ki) && i == old(i)
    {
      q := Identity;
      b := Zero;
    }

    /** set_gains(kp, ki, ks...): stores the gains, then set_Ks writes ks
        into K[0], K[1], ... through the cursor, asserting each index is
        below N, and leaves the cursor at 0. */
    method SetGains(newKp: real, newKi: real, ks: seq<real>)
      requires Valid() && |ks| <= N
      modifies this, K
      ensures Valid()
      ensures kp == newKp && ki == newKi
      ensures K[..] == ks + old(K[..])[|ks|..]
      ensures q == old(q) && b == old(b)
    {
      ki := newKi;
      kp := newKp;
      i := 0;
      var j := 0;
      while j < |ks|
        invariant 0 <= j <= |ks| && i == j
        invariant forall k :: 0 <= k < j ==> K[k] == ks[k]
        invariant forall k :: j <= k < K.Length ==> K[k] == old(K[k])
        invariant q == old(q) && b == old(b) && kp == newKp && ki == newKi
      {
        K[i] := ks[j];
        i := i + 1;
        j := j + 1;
      }
      assert K[..] == ks + old(K[..])[|ks|..];
      i := 0;
    }

    /** set_reference_vectors(vs...): writes vs into V[i], V[i+1], ... from
        the cursor, which is 0 between calls, asserting each index is below
        N, and leaves the cursor at 0. */
    method SetReferenceVectors(vs: seq<Vec3>)
      requires Valid() && |vs| <= N
      modifies this, V
      ensures Valid()
      ensures V[..] == vs + old(V[..])[|vs|..]
      ensures q == old(q) && b == old(b) && kp == old(kp) && ki == old(ki)
    {
      var j := 0;
      while j < |vs|
        invariant 0 <= j <= |vs| && i == j
        invariant forall k :: 0 <= k < j ==> V[k] == vs[k]
        invariant forall k :: j <= k < V.Length ==> V[k] == old(V[k])
        invariant q == old(q) && b == old(b) && kp == old(kp) && ki == old(ki)
      {
        V[i] := vs[j];
        i := i + 1;
        j := j + 1;
      }
      assert V[..] == vs + old(V[..])[|vs|..];
      i := 0;
    }

    /** set_observation_vectors(us...): the same through U, from a cursor
        update_filter has just set to 0. */
    method SetObservationVectors(us: seq<Vec3>)
      requires V.Length == N && U.Length == N && K.Length == N && V != U
      requires i == 0 && |us| <= N
      modifies this, U
      ensures Valid()
      ensures U[..] == us + old(U[..])[|us|..]
      ensures q == old(q) && b == old(b) && kp == old(kp) && ki == old(ki)
    {
      var j := 0;
      while j < |us|
        invariant 0 <= j <= |us| && i == j
        invariant forall k :: 0 <= k < j ==> U[k] == us[k]
        invariant forall k :: j <= k < U.Length ==> U[k] == old(U[k])
        invariant q == old(q) && b == old(b) && kp == old(kp) && ki == old(ki)
      {
        U[i] := us[j];
        i := i + 1;
        j := j + 1;
      }
      assert U[..] == us + old(U[..])[|us|..];
      i := 0;
    }

    /** update_filter(w, dt, us...): stores the observations, sums the
        innovation over all N slots, integrates the attitude with the rate
        corrected by the bias held before this update, then moves the bias
        against the innovation. */
    method UpdateFilter(sqrt: real -> real, w: Vec3, dt: real, us: seq<Vec3>)
      requires Valid() && IsSqrt(sqrt) && |us| <= N
      modifies this, U
      ensures Valid()
      ensures U[..] == us + old(U[..])[|us|..]
      ensures q == IntegrateEuler(sqrt, old(q), Correction(w, old(b), kp, Innovation(K[..], U[..], V[..], old(q), N)), dt)
      ensures b == BiasStep(old(b), ki, Innovation(K[..], U[..], V[..], old(q), N), dt)
      ensures kp == old(kp) && ki == old(ki)
    {
      i := 0;
      SetObservationVectors(us);
      var mes := SumInnovation();
      UpdateAttitude(sqrt, Correction(w, b, kp, mes), dt);
      b := BiasStep(b, ki, mes, dt);
    }

    /** The loop of update_filter: mes += K[n] * cross(U[n], prediction of
        V[n]) for n = 0 .. N - 1. */
    method SumInnovation() returns (mes: Vec3)
      requires V.Length == N && U.Length == N && K.Length == N
      ensures mes == Innovation(K[..], U[..], V[..], q, N)
    {
      mes := Zero;
      var n := 0;
      while n < N
        invariant 0 <= n <= N
        invariant mes == Innovation(K[..], U[..], V[..], q, n)
      {
        mes := mes.AddAssign(Term(K[n], U[n], V[n], q));
        n := n + 1;
      }
    }

    /** update_attitude(w, dt): q = integrate_euler(q, w, dt). */
    method UpdateAttitude(sqrt: real -> real, w: Vec3, dt: real)
      requires IsSqrt(sqrt)
      modifies this
      ensures q == IntegrateEuler(sqrt, old(q), w, dt)
      ensures b == old(b) && kp == old(kp) && ki == old(ki) && i == old(i)
    {
      q := IntegrateEuler(sqrt, q, w, dt);
    }
  }
}
