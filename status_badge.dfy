/** The status badge both record lists draw: a colour pair and an icon. */
module StatusBadge {

  /** The colour family of a badge; `ToneClasses` gives its CSS classes. */
  datatype Tone = Yellow | Blue | Green | Gray | Red

  datatype Icon = ClockIcon | CheckCircleIcon | CalendarDaysIcon | XCircleIcon | DocumentTextIcon

  /** The Tailwind colour family of a tone. */
  function ColourName(t: Tone): string {
    match t
    case Yellow => "yellow"
    case Blue => "blue"
    case Green => "green"
    case Gray => "gray"
    case Red => "red"
  }

  /** The class pair of a tone: a light background and a dark text of one
      colour family. */
  function ToneClasses(t: Tone): (r: string)
    ensures r == "bg-" + ColourName(t) + "-100 text-" + ColourName(t) + "-800"
  {
    match t
    case Yellow =>
      assert "bg-" + "yellow" + "-100 text-" + "yellow" + "-800" == "bg-yellow-100 text-yellow-800";
      "bg-yellow-100 text-yellow-800"
    case Blue =>
      assert "bg-" + "blue" + "-100 text-" + "blue" + "-800" == "bg-blue-100 text-blue-800";
      "bg-blue-100 text-blue-800"
    case Green =>
      assert "bg-" + "green" + "-100 text-" + "green" + "-800" == "bg-green-100 text-green-800";
      "bg-green-100 text-green-800"
    case Gray =>
      assert "bg-" + "gray" + "-100 text-" + "gray" + "-800" == "bg-gray-100 text-gray-800";
      "bg-gray-100 text-gray-800"
    case Red =>
      assert "bg-" + "red" + "-100 text-" + "red" + "-800" == "bg-red-100 text-red-800";
      "bg-red-100 text-red-800"
  }
}
