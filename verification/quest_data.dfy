/**
 * The six quests of the "Master Quests" section, in source order.
 */
module QuestData {
  import opened JsValues
  import opened QuestList

  const HybridAlgorithms: Quest := Quest(
    id := "hybrid-algorithms",
    title := "Hybrid Classical-Quantum Algorithms for Financial Linear Systems",
    description := "Combined CUDA-accelerated preconditioning with quantum HHL, solving sparse systems 50% faster than classical methods. This research explored the intersection of high-performance computing and quantum algorithms to address computational bottlenecks in financial modeling. The hybrid approach leverages classical preprocessing to improve the condition number of matrices before applying quantum algorithms, resulting in significant performance improvements for large-scale financial simulations.",
    technologies := ["Quantum HHL", "CUDA", "Linear Algebra", "Financial Modeling"],
    kind := Some("Thesis"),
    date := Some("October 2024"),
    category := "research",
    image := "/quantum-computing-blue-circuits.png")

  const QuantumMonteCarlo: Quest := Quest(
    id := "quantum-monte-carlo",
    title := "Quantum Monte Carlo for Portfolio Optimization",
    description := "Applied quantum algorithms to high-dimensional risk modeling, outperforming classical benchmarks in portfolio optimization scenarios. This project implemented quantum-enhanced Monte Carlo methods to simulate market behavior and optimize investment portfolios under various risk constraints. The quantum approach demonstrated superior performance in handling the curse of dimensionality that typically plagues classical Monte Carlo simulations, enabling more accurate risk assessments for complex financial instruments.",
    technologies := ["Quantum Monte Carlo", "Portfolio Theory", "Risk Modeling", "Qiskit"],
    kind := Some("Thesis"),
    date := Some("August 2024"),
    category := "research",
    image := "/placeholder-gthwr.png")

  const DynamicCaching: Quest := Quest(
    id := "dynamic-caching",
    title := "Dynamic Caching for Adaptive Databases",
    description := "Reduced query latency by 35% through workload-driven algorithm switching in high-frequency trading database systems. This research developed an adaptive caching system that dynamically selects optimal caching algorithms based on real-time workload patterns. The system continuously monitors query patterns and performance metrics, automatically switching between different caching strategies to maximize hit rates and minimize latency for time-sensitive financial applications.",
    technologies := ["Database Optimization", "Caching Algorithms", "Performance Tuning", "Redis"],
    kind := Some("Thesis"),
    date := Some("November 2023"),
    category := "research",
    image := "/database-caching-system.png")

  const TradingBot: Quest := Quest(
    id := "trading-bot",
    title := "Trading Bot System",
    description := "An RL-based trading bot achieving 12% MoM returns in volatile markets through adaptive learning and risk management. This system employs deep reinforcement learning to develop trading strategies that adapt to changing market conditions. The bot incorporates multiple data sources, including price action, volume, and sentiment analysis, to make informed trading decisions. A sophisticated risk management module ensures position sizing is optimized to balance potential returns against market volatility.",
    technologies := ["Reinforcement Learning", "Python", "TensorFlow", "Zerodha API"],
    kind := None,
    date := None,
    category := "trading",
    image := "/trading-bot-ai.png")

  const SentimentAnalysis: Quest := Quest(
    id := "sentiment-analysis",
    title := "Sentiment Analysis for Trading",
    description := "NLP-powered sentiment analysis system for trading strategies, integrating with QuantConnect for backtesting and validation. This project developed a sophisticated natural language processing pipeline to analyze financial news, social media, and earnings calls in real-time. The system extracts sentiment signals and correlates them with market movements to generate actionable trading insights. Integration with QuantConnect allows for comprehensive backtesting of sentiment-driven strategies across various market conditions.",
    technologies := ["NLP", "Sentiment Analysis", "QuantConnect", "PyTorch"],
    kind := None,
    date := None,
    category := "trading",
    image := "/sentiment-analysis-visualization.png")

  const QuantumCircuit: Quest := Quest(
    id := "quantum-circuit",
    title := "Quantum Circuit Optimizer",
    description := "Contributed to IBM's Qiskit by refining quantum circuit optimizations specifically for financial applications. This project developed specialized circuit optimization techniques that reduce gate count and circuit depth for quantum algorithms used in financial calculations. The optimizations target the specific patterns of quantum operations common in financial applications such as option pricing and risk assessment. These improvements enable more complex financial models to run on current NISQ-era quantum hardware with higher fidelity.",
    technologies := ["Qiskit", "Quantum Gates", "Circuit Optimization", "Python"],
    kind := None,
    date := None,
    category := "quantum",
    image := "/placeholder.svg?height=400&width=600&query=quantum%20circuit%20optimization%20with%20gates%20and%20qubits")

  const Quests: seq<Quest> := [HybridAlgorithms, QuantumMonteCarlo, DynamicCaching, TradingBot, SentimentAnalysis, QuantumCircuit]

  /** The quest ids are distinct, non-empty and tagged with a known category. */
  lemma QuestsWellFormed()
    ensures DistinctIds(Quests)
    ensures forall i :: 0 <= i < |Quests| ==> Quests[i].id != "" && KnownCategory(Quests[i].category)
  {
  }

  /** Only the research quests carry a date; the others show "Ongoing". */
  lemma DatedIffResearch()
    ensures forall i :: 0 <= i < |Quests| ==>
      (Truthy(Quests[i].date) <==> Quests[i].category == "research")
      && (Quests[i].category != "research" ==> DateText(Quests[i]) == "Ongoing")
  {
  }

  /** From the first render, clicking any card opens the modal on that quest. */
  lemma EveryCardOpensItsQuest(q: Quest)
    requires q in Quests
    ensures var v := ModalContent(ToggleCardExpansion(Initial(Quests), q.id));
      v.Some? && v.value.title == q.title && v.value.description == q.description
  {
    QuestsWellFormed();
    ClickOpensModal(Initial(Quests), q);
  }
}
