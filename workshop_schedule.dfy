// src/pages/WorkshopSchedule.tsx: the list of upcoming workshops. Each card
// colours its level badge and its "n of m spots available" line, and its
// register button is disabled and reads "Fully Booked" when no spot is left.

module WorkshopSchedule {

  datatype Workshop = Workshop(
    id: nat,
    title: string,
    program: string,
    date: string,
    time: string,
    duration: string,
    location: string,
    spots: nat,
    totalSpots: nat,
    level: string,
    instructor: string)

  const UpcomingWorkshops: seq<Workshop> := [
    Workshop(1, "Introduction to Python Programming", "Digital Literacy", "March 15-17, 2025",
      "10:00 AM - 4:00 PM", "3 days", "Online (Zoom)", 8, 15, "Beginner", "Ishan Jakkulwar"),
    Workshop(2, "Machine Learning Fundamentals", "AI & Machine Learning", "March 22-29, 2025",
      "6:00 PM - 9:00 PM", "4 sessions", "Hybrid (In-person + Online)", 3, 12, "Intermediate", "Aditya Shah"),
    Workshop(3, "Arduino Robot Building Workshop", "Robotics Engineering", "April 5-12, 2025",
      "2:00 PM - 6:00 PM", "2 weekends", "Dij Innovation Lab, Building A", 5, 10, "Beginner", "Ishan Jakkulwar"),
    Workshop(4, "Web Development with React", "Digital Literacy", "April 15-22, 2025",
      "7:00 PM - 9:30 PM", "4 sessions", "Online (Zoom)", 12, 20, "Intermediate", "Aditya Shah"),
    Workshop(5, "AI Ethics & Responsible AI Development", "AI & Machine Learning", "May 3, 2025",
      "10:00 AM - 5:00 PM", "1 day intensive", "Online (Zoom)", 15, 25, "All Levels", "Ishan Jakkulwar"),
    Workshop(6, "Advanced Robotics Competition Prep", "Robotics Engineering", "May 10-24, 2025",
      "9:00 AM - 5:00 PM", "3 Saturdays", "Dij Innovation Lab, Building A", 2, 8, "Advanced", "Aditya Shah")
  ]

  function LevelColor(level: string): string
  {
    match level
    case "Beginner" => "bg-success/10 text-success border-success/20"
    case "Intermediate" => "bg-warning/10 text-warning border-warning/20"
    case "Advanced" => "bg-destructive/10 text-destructive border-destructive/20"
    case _ => "bg-muted text-muted-foreground border-border"
  }

  /** Only the three named levels get a colour of their own. */
  lemma LevelColorDefault(level: string)
    ensures LevelColor(level) == "bg-muted text-muted-foreground border-border" <==>
      level != "Beginner" && level != "Intermediate" && level != "Advanced"
    ensures LevelColor("All Levels") == LevelColor("")
  {
  }

  /** The free spots as a percentage of all spots, over the reals. */
  ghost function SpotsPercentage(spots: nat, total: nat): real
    requires total > 0
  {
    (spots as real / total as real) * 100.0
  }

  /** Comparing the percentage with a threshold is comparing `spots * 100`
      with `threshold * total`. */
  lemma PercentageAbove(spots: nat, total: nat, threshold: nat)
    ensures total > 0 ==> (SpotsPercentage(spots, total) > threshold as real <==> spots * 100 > threshold * total)
  {
    if total > 0 {
      var x, y := (spots * 100) as real, total as real;
      assert SpotsPercentage(spots, total) == x / y;
      assert x / y * y == x;
      if x / y > threshold as real {
        assert x / y * y > threshold as real * y;
      }
      if x > threshold as real * y {
        assert x / y > threshold as real;
      }
    }
  }

  /** `getAvailabilityColor`, with the percentage thresholds compared by
      cross-multiplication. A zero total divides to Infinity or NaN in
      JavaScript, which the same comparisons reproduce. */
  function AvailabilityColor(spots: nat, total: nat): (r: string)
    ensures total > 0 ==> (r == "text-success" <==> SpotsPercentage(spots, total) > 50.0)
    ensures total > 0 ==> (r == "text-warning" <==> 20.0 < SpotsPercentage(spots, total) <= 50.0)
    ensures total > 0 ==> (r == "text-destructive" <==> SpotsPercentage(spots, total) <= 20.0)
    ensures total == 0 ==> (r == "text-success" <==> spots > 0)
    ensures total == 0 ==> (r == "text-destructive" <==> spots == 0)
  {
    PercentageAbove(spots, total, 50);
    PercentageAbove(spots, total, 20);
    if spots * 100 > 50 * total then "text-success"
    else if spots * 100 > 20 * total then "text-warning"
    else "text-destructive"
  }

  /** The register button of a card. */
  datatype RegisterButton = RegisterButton(disabled: bool, caption: string)

  function RegisterButtonFor(w: Workshop): (b: RegisterButton)
    ensures b.disabled <==> w.spots == 0
    ensures b.caption == "Fully Booked" <==> b.disabled
    ensures !b.disabled ==> b.caption == "Register Now"
  {
    if w.spots == 0 then RegisterButton(true, "Fully Booked") else RegisterButton(false, "Register Now")
  }

  /** Every bundled workshop has some but not more than all spots free, so
      every register button is enabled. */
  lemma BundledNoneFullyBooked(k: nat)
    requires k < |UpcomingWorkshops|
    ensures 0 < UpcomingWorkshops[k].spots <= UpcomingWorkshops[k].totalSpots
    ensures !RegisterButtonFor(UpcomingWorkshops[k]).disabled
  {
  }

  /** The bundled cards' colours; the robot workshop's 5 of 10 is exactly
      50%, which is not above the threshold. */
  lemma BundledAvailability()
    ensures AvailabilityColor(8, 15) == "text-success"
    ensures AvailabilityColor(3, 12) == "text-warning"
    ensures AvailabilityColor(5, 10) == "text-warning"
    ensures AvailabilityColor(12, 20) == "text-success"
    ensures AvailabilityColor(15, 25) == "text-success"
    ensures AvailabilityColor(2, 8) == "text-warning"
  {
  }
}
