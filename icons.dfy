/** The `lucide-react` icons the station's components draw, with the CSS classes they are given. */
module Icons {
  datatype Icon = Radio | Antenna | Zap | Waves | Trophy | Newspaper | Award | Medal | Star

  /** An icon element: which icon, and its `className`. */
  datatype IconView = IconView(icon: Icon, className: string)
}
