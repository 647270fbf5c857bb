/** The companion's mood and the choice of eyes `renderEyes` draws
    (src/App.jsx:120-141). */
module Face {
  import opened Wrappers

  /** The moods this component ever sets: `'neutral'` (initially and on
      failure or timeout), `'thinking'` and `'happy'`. */
  datatype Mood = Neutral | Thinking | Happy

  /** The four eye variants: the moon when asleep, pulsing dots while
      thinking, bouncing arcs when happy, blinking eyes otherwise. */
  datatype Eyes = Asleep | Pulsing | Bouncing | Blinking

  /** `renderEyes`' checks in order: asleep first, then thinking, then happy,
      then the default. */
  function EyesFor(isAwake: bool, mood: Mood): (e: Eyes)
    ensures e == Asleep <==> !isAwake
    ensures isAwake ==> (e == Pulsing <==> mood == Thinking)
    ensures isAwake ==> (e == Bouncing <==> mood == Happy)
    ensures isAwake ==> (e == Blinking <==> mood == Neutral)
  {
    if !isAwake then Asleep
    else
      match mood
      case Thinking => Pulsing
      case Happy => Bouncing
      case Neutral => Blinking
  }

  /** The mood a face shows, if it shows one. */
  function MoodShown(e: Eyes): Option<Mood>
  {
    match e
    case Asleep => None
    case Pulsing => Some(Thinking)
    case Bouncing => Some(Happy)
    case Blinking => Some(Neutral)
  }

  /** While awake the eyes reveal the mood exactly; asleep, they hide it. */
  lemma EyesRevealMood(isAwake: bool, mood: Mood)
    ensures MoodShown(EyesFor(isAwake, mood)) == if isAwake then Some(mood) else None
  {
  }
}
