/** The blink reminder notification: its schedule, its title and the pool of texts it
    picks from at random. */
module Reminders {
  const REMINDER_INTERVAL_MS := 20 * 60 * 1000
  const REMINDER_TITLE := "👁️ BlinkBuddy Reminder"
  const REMINDER_COUNT := 30

  /** The fixed pool the reminder notification's text is drawn from. */
  const REMINDER_MESSAGES: seq<string> := [
    "👀 Eyes tired? Look 20 feet away for 20 seconds!",
    "Time for a 20-20-20 break! Your eyes will thank you.",
    "Pause. Blink. Look away. Reset your eyes now!",
    "Don't forget to look far away for 20 seconds!",
    "Give your eyes a breather – look 20ft away.",
    "Blink 10 times and look around – it helps!",
    "Too much screen time? Time to look away 👁️",
    "Quick break! Follow the 20-20-20 rule.",
    "Focus far to focus better – take a blink break.",
    "Look outside for 20 seconds. It's worth it!",
    "Just 20 seconds – blink and reset your focus.",
    "Vision recharge time – step back mentally.",
    "Keep your eyes comfy. Look into the distance.",
    "Work hard, blink harder – relax your eyes.",
    "💡 Blink to hydrate. Look away for clarity.",
    "Let your eyes rest – gaze at something green 🌿",
    "20-20-20 isn't a rule, it's self-care.",
    "You've earned a 20-sec vacation. Take it now!",
    "BlinkBuddy says: break time! 👁️",
    "Take a step back – your eyes need it.",
    "Give your screen the cold shoulder. 😎",
    "Your focus needs a refresh. Look away.",
    "Close eyes, open, and look far. Refresh!",
    "Be kind to your vision. Blink + look away.",
    "Superheroes blink. You should too.",
    "Better vision starts with tiny habits.",
    "Hey! Look far away. Relax your eyes.",
    "🧠 Brain & eyes need a moment. Take it.",
    "A quick break keeps eye strain away.",
    "Don't just stare. Blink and reset!"
  ]

  /** The text of the notification whose random pick is `pick`. */
  function ReminderMessage(pick: nat): string
    requires pick < REMINDER_COUNT
  {
    REMINDER_MESSAGES[pick]
  }
}
