/** The interactive demo panel: a progress bar that runs while playing and
    wraps from 100 back to 0, play/pause and reset buttons, three metric
    cards that take turns being highlighted, and short-lived particles
    spawned by clicks. */
module InteractiveDemo {

  /** The progress bar's full value, in percent. */
  const Full: int := 100

  /** The number of metric cards. */
  const MetricCount: int := 3

  /** A click particle. Its id comes from the clock and a random number in
      the page; here it is any value. Coordinates are whole pixels. */
  datatype Particle = Particle(id: int, x: int, y: int)

  /** One tick of the progress timer: a full bar starts over at 0. */
  function TickProgress(p: int): (r: int)
    ensures 0 <= p <= Full ==> 0 <= r <= Full
    ensures r == 0 || r == p + 1
    ensures 0 <= p ==> (r == 0 <==> p >= Full)
  {
    if p >= Full then 0 else p + 1
  }

  /** The progress after `n` ticks from `p`. */
  function Ticks(p: int, n: nat): (r: int)
    requires 0 <= p <= Full
    ensures 0 <= r <= Full
  {
    if n == 0 then p else TickProgress(Ticks(p, n - 1))
  }

  /** From an empty bar, `k` ticks give `k` percent, up to a full bar. */
  lemma {:induction false} TicksFromEmpty(k: nat)
    requires k <= Full
    ensures Ticks(0, k) == k
  {
    if k > 0 {
      TicksFromEmpty(k - 1);
    }
  }

  /** Below a full bar every tick adds one percent. */
  lemma {:induction false} TicksFrom(p: int, n: nat)
    requires 0 <= p && p + n <= Full
    ensures Ticks(p, n) == p + n
  {
    if n > 0 {
      TicksFrom(p, n - 1);
    }
  }

  lemma {:induction false} TicksCompose(p: int, m: nat, n: nat)
    requires 0 <= p <= Full
    ensures Ticks(p, m + n) == Ticks(Ticks(p, m), n)
  {
    if n > 0 {
      TicksCompose(p, m, n - 1);
    }
  }

  /** The bar goes round in exactly 101 ticks: from any value `p` it
      reaches the end after `Full - p` ticks, starts over on the next one,
      and is back at `p` after 101. */
  lemma TickPeriod(p: int)
    requires 0 <= p <= Full
    ensures Ticks(p, Full + 1) == p
  {
    TicksFrom(p, Full - p);
    assert Ticks(p, Full - p + 1) == 0;
    TicksFromEmpty(p);
    TicksCompose(p, Full - p + 1, p);
  }

  /** Starting from 0, the bar is first empty again after exactly 101 ticks. */
  lemma FullCycleFromEmpty()
    ensures Ticks(0, Full + 1) == 0
    ensures forall k: nat :: 0 < k <= Full ==> Ticks(0, k) != 0
  {
    TickPeriod(0);
    forall k: nat | 0 < k <= Full
      ensures Ticks(0, k) != 0
    {
      TicksFromEmpty(k);
    }
  }

  /** The particles left when the one with id `id` expires: every other
      particle, in its original order. */
  function RemoveParticle(particles: seq<Particle>, id: int): (r: seq<Particle>)
    ensures |r| <= |particles|
    ensures forall p :: p in r <==> p in particles && p.id != id
  {
    if |particles| == 0 then []
    else
      (if particles[0].id != id then [particles[0]] else [])
      + RemoveParticle(particles[1..], id)
  }

  /** Removal works piecewise, so the survivors keep their relative order. */
  lemma {:induction false} RemoveParticleAppend(a: seq<Particle>, b: seq<Particle>, id: int)
    ensures RemoveParticle(a + b, id) == RemoveParticle(a, id) + RemoveParticle(b, id)
  {
    if |a| > 0 {
      assert (a + b)[1..] == a[1..] + b;
      RemoveParticleAppend(a[1..], b, id);
    } else {
      assert a + b == b;
    }
  }

  /** Removing an id no particle carries changes nothing. */
  lemma {:induction false} RemoveAbsentParticle(particles: seq<Particle>, id: int)
    requires forall p :: p in particles ==> p.id != id
    ensures RemoveParticle(particles, id) == particles
  {
    if |particles| > 0 {
      RemoveAbsentParticle(particles[1..], id);
      assert particles == [particles[0]] + particles[1..];
    }
  }

  /** A click's particle, once expired, leaves the list as it was before
      the click, provided its id is new. */
  lemma AddThenExpire(particles: seq<Particle>, p: Particle)
    requires forall q :: q in particles ==> q.id != p.id
    ensures RemoveParticle(particles + [p], p.id) == particles
  {
    RemoveParticleAppend(particles, [p], p.id);
    RemoveAbsentParticle(particles, p.id);
    assert RemoveParticle([p], p.id) == [];
  }

  class Demo {
    var isPlaying: bool
    var progress: int
    var activeMetric: int
    var particles: seq<Particle>

    ghost predicate Valid()
      reads this
    {
      0 <= progress <= Full && 0 <= activeMetric < MetricCount
    }

    constructor ()
      ensures Valid()
      ensures !isPlaying && progress == 0 && activeMetric == 0 && particles == []
    {
      isPlaying := false;
      progress := 0;
      activeMetric := 0;
      particles := [];
    }

    /** The 50 ms progress timer, which exists only while playing. */
    method Tick()
      requires Valid()
      modifies this`progress
      ensures Valid()
      ensures progress == if isPlaying then TickProgress(old(progress)) else old(progress)
    {
      if isPlaying {
        progress := TickProgress(progress);
      }
    }

    /** The play/pause button. */
    method TogglePlay()
      requires Valid()
      modifies this`isPlaying
      ensures Valid()
      ensures isPlaying == !old(isPlaying)
    {
      isPlaying := !isPlaying;
    }

    /** The reset button. */
    method Reset()
      requires Valid()
      modifies this`progress, this`isPlaying
      ensures Valid()
      ensures progress == 0 && !isPlaying
    {
      progress := 0;
      isPlaying := false;
    }

    /** The two-second timer that highlights the next metric card. */
    method CycleMetric()
      requires Valid()
      modifies this`activeMetric
      ensures Valid()
      ensures activeMetric == (old(activeMetric) + 1) % MetricCount
    {
      activeMetric := (activeMetric + 1) % MetricCount;
    }

    /** A click on metric card `index`. */
    method SelectMetric(index: int)
      requires Valid() && 0 <= index < MetricCount
      modifies this`activeMetric
      ensures Valid()
      ensures activeMetric == index
    {
      activeMetric := index;
    }

    /** A click on the canvas adds one particle at the end. */
    method AddParticle(p: Particle)
      requires Valid()
      modifies this`particles
      ensures Valid()
      ensures particles == old(particles) + [p]
    {
      particles := particles + [p];
    }

    /** The one-second timeout that drops the particle with id `id`. */
    method ExpireParticle(id: int)
      requires Valid()
      modifies this`particles
      ensures Valid()
      ensures particles == RemoveParticle(old(particles), id)
    {
      particles := RemoveParticle(particles, id);
    }
  }
}
