/** The presentation vocabulary the screens choose between: badge variants and
    the colour families of their status pills. Only the choice is modelled,
    not the class names. */
module Ui {

  datatype Colour = Green | Yellow | Red | Blue | Grey

  datatype Variant = DefaultVariant | Secondary

  datatype Badge = Badge(variant: Variant, colour: Colour)

  /** The two-state status badge of the list screens: the default, green badge
      for the one "good" status and a secondary badge in `otherColour` for any
      other status. */
  function TwoStateBadge(good: bool, otherColour: Colour): Badge {
    if good then Badge(DefaultVariant, Green) else Badge(Secondary, otherColour)
  }
}
