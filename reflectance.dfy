/** Reflectance sampling: a colour sensor reports three channel intensities
    (red, green, blue, each a percentage), and one reflectance sample is
    their arithmetic mean. Both light sensors use the same reduction. */
module Reflectance {

  /** One reading of a colour sensor: the three channel intensities. */
  datatype Rgb = Rgb(red: int, green: int, blue: int)

  /** The smallest of the three channels. */
  function Darkest(x: Rgb): int {
    if x.red <= x.green && x.red <= x.blue then x.red
    else if x.green <= x.blue then x.green
    else x.blue
  }

  /** The largest of the three channels. */
  function Brightest(x: Rgb): int {
    if x.red >= x.green && x.red >= x.blue then x.red
    else if x.green >= x.blue then x.green
    else x.blue
  }

  /** A reflectance sample: the mean of the three channels, as a real number
      (the division is a true division, not an integer one). */
  function Sample(x: Rgb): real {
    (x.red + x.green + x.blue) as real / 3.0
  }

  /** A sample is the mean of the three channels: three samples add up to
      the channel total, and the sample lies between the darkest and the
      brightest channel. */
  lemma SampleIsChannelMean(x: Rgb)
    ensures 3.0 * Sample(x) == (x.red + x.green + x.blue) as real
    ensures Darkest(x) as real <= Sample(x) <= Brightest(x) as real
  {
  }

  /** The sensor reports each channel as a percentage. */
  predicate InPercentRange(x: Rgb) {
    0 <= x.red <= 100 && 0 <= x.green <= 100 && 0 <= x.blue <= 100
  }

  /** Channels in 0..100 give a sample in 0..100, and a surface that reflects
      all three colours equally reads as that common intensity. */
  lemma SampleInPercentRange(x: Rgb)
    requires InPercentRange(x)
    ensures 0.0 <= Sample(x) <= 100.0
    ensures x.red == x.green == x.blue ==> Sample(x) == x.red as real
  {
    SampleIsChannelMean(x);
  }
}
