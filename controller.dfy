/**
 * The page's mood controller: the globals `detecting`, `currentMood`,
 * `activeOscs` and the shared gain node, with `beginDetection`, one tick of
 * its polling loop, `stopSound` and `playMoodSound` as methods over them.
 *
 * The detector is an input (the faces found in the current frame) and the
 * audio engine an output: the oscillators scheduled, the oscillators on
 * which `stop()` was called, and the gain schedule.
 */
module Controller {
  import opened Wrappers
  import opened Expressions
  import opened Recipes

  /** The shared output gain: not yet created, faded to 0, or shaped by a recipe's envelope. */
  datatype Gain = NoNode | Silenced | Shaped(env: Envelope)

  /** The oscillators that belong to a mood: a recipe's, or none when no mood is set. */
  function Scheduled(mood: Option<string>): seq<Osc>
  {
    match mood
    case None => []
    case Some(m) => RecipeFor(m).oscs
  }

  /** What `stopSound` leaves of the gain: an existing node fades to 0. */
  function Faded(g: Gain): Gain
  {
    if g == NoNode then NoNode else Silenced
  }

  class MoodController {
    /** Set once the polling loop has been started. */
    var detecting: bool
    /** Number of polling loops (`setInterval` calls) started. */
    var intervals: nat
    var currentMood: Option<string>
    var activeOscs: seq<Osc>
    /** Every oscillator `stop()` has been called on, oldest first. */
    var stopped: seq<Osc>
    var gain: Gain

    /**
     * At most one polling loop runs, and it runs exactly when `detecting` is
     * set; the oscillators held are exactly the current mood's recipe (none
     * without a mood), and the gain follows that recipe's envelope.
     */
    ghost predicate Valid()
      reads this
    {
      && intervals == (if detecting then 1 else 0)
      && activeOscs == Scheduled(currentMood)
      && (currentMood.Some? ==> gain == Shaped(RecipeFor(currentMood.value).env))
      && (currentMood.None? ==> !gain.Shaped?)
    }

    /** The state at page load. */
    constructor ()
      ensures Valid()
      ensures !detecting && intervals == 0 && currentMood == None
      ensures activeOscs == [] && stopped == [] && gain == NoNode
    {
      detecting := false;
      intervals := 0;
      currentMood := None;
      activeOscs := [];
      stopped := [];
      gain := NoNode;
    }

    /** `beginDetection`: starts the polling loop unless one is already running. */
    method BeginDetection()
      requires Valid()
      modifies this
      ensures Valid() && detecting
      ensures old(detecting) ==> unchanged(this)
      ensures !old(detecting) ==> intervals == old(intervals) + 1
      ensures currentMood == old(currentMood) && activeOscs == old(activeOscs)
      ensures stopped == old(stopped) && gain == old(gain)
    {
      if detecting {
        return;
      }
      detecting := true;
      intervals := intervals + 1;
    }

    /** `stopSound`: stops every active oscillator, forgets them all and fades the gain. */
    method StopSound()
      modifies this`activeOscs, this`stopped, this`gain
      ensures activeOscs == []
      ensures stopped == old(stopped) + old(activeOscs)
      ensures gain == Faded(old(gain))
    {
      for i := 0 to |activeOscs|
        invariant activeOscs == old(activeOscs)
        invariant gain == old(gain)
        invariant stopped == old(stopped) + activeOscs[..i]
      {
        stopped := stopped + [activeOscs[i]];
      }
      activeOscs := [];
      if gain != NoNode {
        gain := Silenced;
      }
    }

    /**
     * `playMoodSound`: stops what is playing, then schedules the mood's
     * oscillators one push at a time and shapes the gain with its envelope.
     */
    method PlayMoodSound(mood: string)
      modifies this`activeOscs, this`stopped, this`gain
      ensures activeOscs == RecipeFor(mood).oscs
      ensures stopped == old(stopped) + old(activeOscs)
      ensures gain == Shaped(RecipeFor(mood).env)
    {
      StopSound();
      var recipe := RecipeFor(mood);
      for i := 0 to |recipe.oscs|
        invariant stopped == old(stopped) + old(activeOscs)
        invariant activeOscs == recipe.oscs[..i]
      {
        activeOscs := activeOscs + [recipe.oscs[i]];
      }
      gain := Shaped(recipe.env);
    }

    /**
     * One tick of the polling loop, given whether the video is playing and the
     * faces the detector found. Returns the status text the tick shows, if any.
     * A face whose expression object has no keys makes `reduce` throw, which
     * abandons the tick before anything changes.
     */
    method Tick(videoPlaying: bool, faces: seq<Face>) returns (status: Option<string>)
      requires Valid() && detecting
      modifies this
      ensures Valid() && detecting == old(detecting) && intervals == old(intervals)
      ensures !videoPlaying ==> unchanged(this) && status == None
      ensures videoPlaying && faces == [] ==>
        && currentMood == None && activeOscs == []
        && stopped == old(stopped) + old(activeOscs)
        && gain == Faded(old(gain))
        && status == Some("No face detected.")
      ensures videoPlaying && faces != [] ==>
        var mood := Dominant(faces[0].expressions);
        && (mood.None? || mood == old(currentMood) ==> unchanged(this) && status == None)
        && (mood.Some? && mood != old(currentMood) ==>
              && currentMood == mood
              && activeOscs == RecipeFor(mood.value).oscs
              && stopped == old(stopped) + old(activeOscs)
              && gain == Shaped(RecipeFor(mood.value).env)
              && status == Some("Detected: " + mood.value))
    {
      status := None;
      if !videoPlaying {
        return;
      }
      if |faces| > 0 {
        var best := faces[0];
        var dominant := Dominant(best.expressions);
        if dominant.None? {
          return;
        }
        var mood := dominant.value;
        if Some(mood) != currentMood {
          currentMood := Some(mood);
          PlayMoodSound(mood);
          status := Some("Detected: " + mood);
        }
      } else {
        currentMood := None;
        StopSound();
        status := Some("No face detected.");
      }
    }
  }

  /**
   * A second tick that finds the same dominant mood as the first neither
   * stops nor restarts anything: over both ticks the oscillators of the old
   * mood are stopped once and the new recipe is scheduled once.
   */
  method SameMoodTwice(c: MoodController, faces: seq<Face>, later: seq<Face>)
    requires c.Valid() && c.detecting
    requires faces != [] && later != []
    requires Dominant(later[0].expressions) == Dominant(faces[0].expressions)
    modifies c
    ensures c.Valid()
    ensures Dominant(faces[0].expressions).Some? ==>
      && c.currentMood == Dominant(faces[0].expressions)
      && c.activeOscs == RecipeFor(c.currentMood.value).oscs
      && c.stopped == old(c.stopped) + (if old(c.currentMood) == c.currentMood then [] else old(c.activeOscs))
  {
    var _ := c.Tick(true, faces);
    var _ := c.Tick(true, later);
  }

  /**
   * The detector reports happy 0.9, sad 0.05 and neutral 0.05 on a freshly
   * started page: happy is chosen, its three sines are scheduled 120 ms apart
   * and the status reads "Detected: happy".
   */
  method HappyScenario() returns (mood: Option<string>, oscs: seq<Osc>, status: Option<string>)
    ensures mood == Some("happy")
    ensures oscs == [Osc(Sine, Steady(660), 0, 600), Osc(Sine, Steady(880), 120, 720), Osc(Sine, Steady(990), 240, 840)]
    ensures status == Some("Detected: happy")
  {
    var c := new MoodController();
    c.BeginDetection();
    var es := [Expression("happy", 0.9), Expression("sad", 0.05), Expression("neutral", 0.05)];
    var faces := [Face(es)];
    assert Dominant(faces[0].expressions) == Some("happy") by {
      UniqueMaximumChosen(es, 0);
    }
    status := c.Tick(true, faces);
    mood, oscs := c.currentMood, c.activeOscs;
    assert oscs == RecipeFor("happy").oscs;
    assert status == Some("Detected: " + "happy");
    HappyRecipe();
    assert "Detected: " + "happy" == "Detected: happy";
  }

  /**
   * Whatever was playing, a frame without faces leaves no mood, no scheduled
   * oscillator, and every previously scheduled oscillator stopped.
   */
  method NoFaceScenario(c: MoodController) returns (status: Option<string>)
    requires c.Valid() && c.detecting
    modifies c
    ensures c.currentMood == None && c.activeOscs == []
    ensures c.stopped == old(c.stopped) + old(c.activeOscs)
    ensures status == Some("No face detected.")
  {
    status := c.Tick(true, []);
  }
}
